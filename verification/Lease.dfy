/**
 The lease row of a collector group and the operations on it
 (collectorha/lease.go). The row is a value here, so that runs can be reasoned
 about; class GroupRow below is the row as it is updated in place.

 Times are milliseconds. The code reads two clocks: the Go process decides with
 its own ("wall"), and the database stamps with the start of the transaction
 ("stamp"). Both are arguments.
 */
module Lease {
  import opened Common

  type Machine = nat

  /** A holder that isn't heard from for this long has lost its lease. */
  const TTL: Time := 60_000
  /** The pause between a step-down and the target's first grant. */
  const HANDOVER_GRACE: Time := 10_000
  /** A machine not seen for longer than this can't be handed the lease. */
  const OFFLINE_AFTER: Time := 120_000

  datatype Row = Row(holder: Option<Machine>,
                     expires: Option<Time>,
                     notBefore: Option<Time>,
                     handover: Option<Machine>)

  /** A group nobody has polled for yet. */
  const FREE := Row(None, None, None, None)

  /** What one Acquire does: grants the lease, declines, or makes the holder step down. */
  datatype Outcome = Granted | Declined | SteppedDown

  datatype HandoverError = NotInGroup | MachineOffline

  predicate Lapsed(r: Row, wall: Time) {
    r.holder.None? || r.expires.None? || r.expires.value <= wall
  }

  /** The switch of Acquire. */
  function Decide(r: Row, m: Machine, wall: Time): Outcome {
    if r.holder == Some(m) && r.handover.Some? && r.handover != Some(m) then SteppedDown
    else if r.holder == Some(m) && (r.notBefore.None? || r.notBefore.value <= wall) then Granted
    else if r.holder != Some(m) && Lapsed(r, wall) && (r.handover.None? || r.handover == Some(m)) then Granted
    else Declined
  }

  /** Whether Acquire by m changes the holder: a takeover or a step-down, but not a renewal. */
  predicate Changes(r: Row, m: Machine, wall: Time) {
    match Decide(r, m, wall)
    case SteppedDown => true
    case Granted => r.holder != Some(m)
    case Declined => false
  }

  /** The row after Acquire by m. */
  function Acquired(r: Row, m: Machine, wall: Time, stamp: Time): Row {
    match Decide(r, m, wall)
    case SteppedDown =>
      Row(r.handover, Some(stamp + HANDOVER_GRACE + TTL), Some(stamp + HANDOVER_GRACE), None)
    case Granted =>
      Row(Some(m), Some(stamp + TTL), None, if r.handover == Some(m) then None else r.handover)
    case Declined => r
  }

  /** Whether m serves its group right now, by the database's clock. */
  predicate IsActive(r: Row, m: Machine, stamp: Time) {
    && Holds(r, m, stamp)
    && (r.notBefore.None? || r.notBefore.value <= stamp)
  }

  /** m holds a lease that is still running, if perhaps in its grace. */
  predicate Holds(r: Row, m: Machine, stamp: Time) {
    r.holder == Some(m) && r.expires.Some? && r.expires.value > stamp
  }

  /** The row after an accepted request to make m active. */
  function HandoverRequested(r: Row, m: Machine, stamp: Time): Row {
    if Holds(r, m, stamp)
    then r.(handover := None)
    else r.(handover := Some(m))
  }

  /**
   The lease columns of a primary's row, updated in place, with its config version
   and how often its group was notified.
   */
  class GroupRow {
    var holder: Option<Machine>
    var expires: Option<Time>
    var notBefore: Option<Time>
    var handover: Option<Machine>
    var version: nat
    var notices: nat

    function View(): Row
      reads this
    {
      Row(holder, expires, notBefore, handover)
    }

    constructor ()
      ensures View() == FREE && version == 0 && notices == 0
    {
      holder, expires, notBefore, handover := None, None, None, None;
      version, notices := 0, 0;
    }

    /** The transaction of Acquire. */
    method Decided(m: Machine, wall: Time, stamp: Time) returns (active: bool, changed: bool)
      modifies this`holder, this`expires, this`notBefore, this`handover
      ensures active <==> Decide(old(View()), m, wall) == Granted
      ensures changed <==> Changes(old(View()), m, wall)
      ensures View() == Acquired(old(View()), m, wall, stamp)
    {
      var isHolder := holder == Some(m);
      var lapsed := holder.None? || expires.None? || expires.value <= wall;
      active, changed := false, false;
      if isHolder && handover.Some? && handover != Some(m) {
        holder := handover;
        notBefore := Some(stamp + HANDOVER_GRACE);
        expires := Some(stamp + HANDOVER_GRACE + TTL);
        handover := None;
        changed := true;
        return;
      }
      if isHolder && (notBefore.None? || notBefore.value <= wall) {
        active := true;
      } else if !isHolder && lapsed && (handover.None? || handover == Some(m)) {
        active, changed := true, true;
      } else {
        return;
      }
      holder := Some(m);
      expires := Some(stamp + TTL);
      notBefore := None;
      if handover == Some(m) {
        handover := None;
      }
    }

    /** Every machine of the group is to pull its config anew, and is woken to hear of it. */
    method OnChange()
      modifies this`version, this`notices
      ensures version == old(version) + 1 && notices == old(notices) + 1
    {
      version := version + 1;
      notices := notices + 1;
    }

    /** Renews, takes over, steps down or declines. An ungrouped collector is always active and has no lease. */
    method Acquire(grouped: bool, m: Machine, wall: Time, stamp: Time) returns (active: bool)
      modifies this
      ensures !grouped ==> active && View() == old(View()) && version == old(version) && notices == old(notices)
      ensures grouped ==> (active <==> Decide(old(View()), m, wall) == Granted)
      ensures grouped ==> View() == Acquired(old(View()), m, wall, stamp)
      ensures grouped ==>
                (active <==> old(handover) in {None, Some(m)}
                             && if old(holder) == Some(m) then old(notBefore).None? || old(notBefore).value <= wall
                                else old(holder).None? || old(expires).None? || old(expires).value <= wall)
      ensures grouped && active ==> View() == Row(Some(m), Some(stamp + TTL), None, None)
      ensures grouped && !active ==>
                var t := stamp + HANDOVER_GRACE;
                View() == if old(holder) == Some(m) && old(handover) !in {None, Some(m)}
                          then Row(old(handover), Some(t + TTL), Some(t), None) else old(View())
      ensures grouped ==> var more := if holder != old(holder) then 1 else 0;
                          version == old(version) + more && notices == old(notices) + more
    {
      if !grouped {
        return true;
      }
      var changed;
      active, changed := Decided(m, wall, stamp);
      if changed {
        OnChange();
      }
    }

    /** The portal's "Make active". */
    method RequestHandover(grouped: bool, lastSeen: Option<Time>, m: Machine, wall: Time, stamp: Time)
        returns (err: Option<HandoverError>)
      modifies this
      ensures err == if !grouped then Some(NotInGroup)
                     else if lastSeen.None? || wall - lastSeen.value > OFFLINE_AFTER then Some(MachineOffline)
                     else None
      ensures View() == if err.Some? then old(View()) else HandoverRequested(old(View()), m, stamp)
      ensures version == old(version)
      ensures err.None? ==>
                var running := old(holder) == Some(m) && old(expires).Some? && old(expires).value > stamp;
                && View() == Row(old(holder), old(expires), old(notBefore), if running then None else Some(m))
                && notices == old(notices) + if running then 0 else 1
      ensures err.Some? ==> notices == old(notices)
    {
      if !grouped {
        return Some(NotInGroup);
      }
      if lastSeen.None? || wall - lastSeen.value > OFFLINE_AFTER {
        return Some(MachineOffline);
      }
      err := None;
      if holder == Some(m) && expires.Some? && expires.value > stamp {
        handover := None;
        return;
      }
      handover := Some(m);
      notices := notices + 1;
    }
  }

  /**
   The two ways the cloud answers "does m serve?" agree: a machine that gets
   the device list from the config pull is granted its next Acquire exactly
   when no handover to another machine is pending. Only the holder is ever
   made to step down.
   */
  lemma ActiveMachinesRenew(r: Row, m: Machine, wall: Time, stamp: Time)
    requires IsActive(r, m, stamp)
    requires stamp <= wall
    ensures Decide(r, m, wall) == Granted <==> (r.handover.None? || r.handover == Some(m))
    ensures forall o: Machine, w: Time :: o != m && w < r.expires.value ==> Decide(r, o, w) == Declined
  {
  }

  /** A grant is visible to the config pull until the lease runs out, and takes the lease from everybody else. */
  lemma GrantShowsAsActive(r: Row, m: Machine, wall: Time, stamp: Time, later: Time)
    requires Decide(r, m, wall) == Granted
    ensures IsActive(Acquired(r, m, wall, stamp), m, later) <==> later < stamp + TTL
    ensures forall o: Machine :: o != m ==> !IsActive(Acquired(r, m, wall, stamp), o, later)
  {
  }

  /** The group is told of a change exactly when its holder is another one. */
  lemma ChangesExactly(r: Row, m: Machine, wall: Time, stamp: Time)
    ensures Changes(r, m, wall) <==> Acquired(r, m, wall, stamp).holder != r.holder
  {
  }

  /**
   What a request comes to at the target's next poll: a machine that isn't serving is let in
   as soon as nobody else's lease runs, or makes whoever holds the lease step down; for the one
   that serves it takes back whatever handover was pending.
   */
  lemma RequestIsHeard(r: Row, m: Machine, stamp: Time, wall: Time, o: Machine)
    requires stamp <= wall && (r.notBefore.Some? && r.expires.Some? ==> r.notBefore.value <= r.expires.value)
    ensures var asked := HandoverRequested(r, m, stamp);
            && asked.(handover := r.handover) == r
            && (IsActive(r, m, stamp) ==> asked.handover == None && Decide(asked, m, wall) == Granted)
            && (!Holds(r, m, stamp) ==> asked.handover == Some(m))
            && (!Holds(r, m, stamp) && r.holder == Some(o) && o != m ==> Decide(asked, o, wall) == SteppedDown)
            && (!Holds(r, m, stamp) && (r.holder.None? || r.expires.None? || r.expires.value <= wall)
                && (r.holder == Some(m) ==> r.notBefore.None? || r.expires.Some?)
                ==> Decide(asked, m, wall) == Granted)
            && (!Holds(r, m, stamp) && r.holder != Some(o) && o != m ==> Decide(asked, o, wall) == Declined)
  {
  }
}
