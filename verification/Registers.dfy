/**
 What a device's columns come to when readings arrive late, twice or out of
 order: the current state moves forward in time only, and portal edits of the
 tags are not undone by readings made with older settings (ingest/handler.go,
 portalapi/admin_handlers.go, bridgecfg/handler.go).
 */
module Registers {
  import opened Common
  import opened DeviceTable

  // ------------------------------------------------- current state

  /** The readings applied to a live device, first to last. */
  function MergedAll(d: Device, rs: seq<Reading>): Device {
    if rs == [] then d else Merged(MergedAll(d, rs[..|rs| - 1]), rs[|rs| - 1])
  }

  /** The columns that say how a device is now. */
  datatype Now = Now(status: Option<string>, lastSeen: Option<Time>, lastOnline: Option<Time>)

  function NowOf(d: Device): Now {
    Now(d.status, d.lastSeen, d.lastOnline)
  }

  /** A reading with a timestamp and a status, or an upsert made for an event, which has neither. */
  predicate Proper(r: Reading) {
    r.at.Some? <==> r.status.Some?
  }

  /** No two different answers for one instant. */
  ghost predicate Consistent(rs: seq<Reading>) {
    && (forall r :: r in rs ==> Proper(r))
    && (forall q, r :: q in rs && r in rs && q.at.Some? && q.at == r.at ==> q.status == r.status)
  }

  predicate AtMost(a: Option<Time>, b: Option<Time>) {
    a.Some? ==> b.Some? && a.value <= b.value
  }

  /** t is the greatest of start and the instants that f picks from rs. */
  ghost predicate IsGreatest(t: Option<Time>, start: Option<Time>, rs: seq<Reading>, f: Reading -> Option<Time>) {
    && AtMost(start, t)
    && (forall r :: r in rs ==> AtMost(f(r), t))
    && (t == start || exists r :: r in rs && f(r) == t)
  }

  /** The status belongs to the reading of the greatest timestamp; with none that new, it is the one there was. */
  ghost predicate IsLatestStatus(status: Option<string>, d: Device, rs: seq<Reading>, lastSeen: Option<Time>) {
    && (forall r :: r in rs && r.at.Some? && r.at == lastSeen ==> status == r.status)
    && ((forall r :: r in rs && r.at.Some? ==> r.at != lastSeen) ==> status == d.status)
  }

  function SeenAt(r: Reading): Option<Time> { r.at }

  /** What any list of readings comes to, in terms of which readings are in it and nothing else. */
  lemma {:induction false} MergedAllMeans(d: Device, rs: seq<Reading>)
    requires Consistent(rs)
    ensures var e := MergedAll(d, rs);
            && IsGreatest(e.lastSeen, d.lastSeen, rs, SeenAt)
            && IsGreatest(e.lastOnline, d.lastOnline, rs, OnlineAt)
            && IsLatestStatus(e.status, d, rs, e.lastSeen)
  {
    if rs != [] {
      var front, r := rs[..|rs| - 1], rs[|rs| - 1];
      assert rs == front + [r];
      assert forall q :: q in rs <==> q in front || q == r;
      MergedAllMeans(d, front);
      var b := MergedAll(d, front);
      GreatestGrows(b.lastSeen, d.lastSeen, front, r, SeenAt);
      GreatestGrows(b.lastOnline, d.lastOnline, front, r, OnlineAt);
      StatusFollows(d, b, front, r);
    }
  }

  lemma GreatestGrows(t: Option<Time>, start: Option<Time>, front: seq<Reading>, r: Reading, f: Reading -> Option<Time>)
    requires IsGreatest(t, start, front, f)
    ensures IsGreatest(Greatest(f(r), t), start, front + [r], f)
  {
    var u := Greatest(f(r), t);
    assert r in front + [r];
    if u != f(r) && t != start {
      var q :| q in front && f(q) == t;
      assert q in front + [r];
    }
  }

  lemma StatusFollows(d: Device, b: Device, front: seq<Reading>, r: Reading)
    requires Consistent(front + [r])
    requires IsGreatest(b.lastSeen, d.lastSeen, front, SeenAt) && IsLatestStatus(b.status, d, front, b.lastSeen)
    ensures IsLatestStatus(Merged(b, r).status, d, front + [r], Merged(b, r).lastSeen)
  {
    var e := Merged(b, r);
    assert r in front + [r];
    forall q | q in front + [r] && q.at.Some? && q.at == e.lastSeen ensures e.status == q.status {
      if q in front {
        assert AtMost(SeenAt(q), b.lastSeen);
      }
    }
    if forall q :: q in front + [r] && q.at.Some? ==> q.at != e.lastSeen {
      forall q | q in front && q.at.Some? ensures q.at != b.lastSeen {
        assert q in front + [r];
      }
    }
  }

  /**
   Replay-proof state: a live device ends up the same whatever order its readings
   arrive in and however often each is replayed, with events interleaved anywhere;
   only which readings arrived counts.
   */
  lemma ReplaysDontMatter(d: Device, rs: seq<Reading>, qs: seq<Reading>)
    requires Consistent(rs)
    requires forall r: Reading :: r.at.Some? ==> (r in rs <==> r in qs)
    requires forall r :: r in qs ==> Proper(r)
    ensures NowOf(MergedAll(d, rs)) == NowOf(MergedAll(d, qs))
  {
    assert Consistent(qs);
    MergedAllMeans(d, rs);
    MergedAllMeans(d, qs);
    var a, b := MergedAll(d, rs), MergedAll(d, qs);
    SameGreatest(a.lastSeen, b.lastSeen, d.lastSeen, rs, qs, SeenAt);
    SameGreatest(a.lastOnline, b.lastOnline, d.lastOnline, rs, qs, OnlineAt);
    if r :| r in rs && r.at.Some? && r.at == a.lastSeen {
      assert r in qs;
    } else {
      assert forall q :: q in qs && q.at.Some? ==> q in rs;
    }
  }

  lemma SameGreatest(t: Option<Time>, u: Option<Time>, start: Option<Time>, rs: seq<Reading>, qs: seq<Reading>,
                     f: Reading -> Option<Time>)
    requires IsGreatest(t, start, rs, f) && IsGreatest(u, start, qs, f)
    requires forall r: Reading :: f(r).Some? && (r in rs || r in qs) ==> r.at.Some?
    requires forall r: Reading :: r.at.Some? ==> (r in rs <==> r in qs)
    ensures t == u
  {
    if t != start && t.Some? {
      var r :| r in rs && f(r) == t;
      assert r in qs;
    }
    if u != start && u.Some? {
      var r :| r in qs && f(r) == u;
      assert r in rs;
    }
  }

  /** The readings of a push that are for one reported id, in order. */
  function Named(rs: seq<Reading>, name: string): seq<Reading> {
    if rs == [] then []
    else
      var front, r := Named(rs[..|rs| - 1], name), rs[|rs| - 1];
      if r.reported == name then front + [r] else front
  }

  /** One reading of a push merges into the live device at its slot, and leaves every other device alone. */
  lemma UpsertMerges(f: Fleet, c: Collector, r: Reading, id: DeviceId, name: string)
    requires WellFormed(f) && id in f.devices && !f.devices[id].deleted && Holds(f.devices[id], Slot(c, name))
    ensures WellFormed(Upserted(f, c, r)) && id in Upserted(f, c, r).devices
    ensures Upserted(f, c, r).devices[id] == if r.reported == name then Merged(f.devices[id], r) else f.devices[id]
  {
    UpsertKeepsKeys(f, c, r);
    if r.reported == name {
      assert Occupied(f, Slot(c, name)) && Occupant(f, Slot(c, name)) == id;
    }
  }

  /** A whole push comes to its readings for each device, merged in order, and nothing of the others'. */
  lemma {:induction false} PushMergesReadings(f: Fleet, c: Collector, rs: seq<Reading>, id: DeviceId, name: string)
    requires WellFormed(f) && id in f.devices && !f.devices[id].deleted && Holds(f.devices[id], Slot(c, name))
    ensures WellFormed(AllUpserted(f, c, rs)) && id in AllUpserted(f, c, rs).devices
    ensures AllUpserted(f, c, rs).devices[id] == MergedAll(f.devices[id], Named(rs, name))
  {
    if rs != [] {
      var front, r := rs[..|rs| - 1], rs[|rs| - 1];
      PushMergesReadings(f, c, front, id, name);
      MergedKeepsDevice(f.devices[id], Named(front, name));
      UpsertMerges(AllUpserted(f, c, front), c, r, id, name);
      assert (Named(front, name) + [r])[..|Named(front, name)|] == Named(front, name);
    }
  }

  lemma {:induction false} MergedKeepsDevice(d: Device, rs: seq<Reading>)
    ensures var e := MergedAll(d, rs);
            e.collector == d.collector && e.reported == d.reported && e.deleted == d.deleted
  {
    if rs != [] {
      MergedKeepsDevice(d, rs[..|rs| - 1]);
    }
  }

  /** So whole pushes can be repeated, and their readings sent in any order, without a trace in the current state. */
  lemma ReplayedPushesDontMatter(f: Fleet, c: Collector, rs: seq<Reading>, qs: seq<Reading>, id: DeviceId, name: string)
    requires WellFormed(f) && id in f.devices && !f.devices[id].deleted && Holds(f.devices[id], Slot(c, name))
    requires Consistent(Named(rs, name)) && forall r :: r in Named(qs, name) ==> Proper(r)
    requires forall r: Reading :: r.at.Some? ==> (r in Named(rs, name) <==> r in Named(qs, name))
    ensures id in AllUpserted(f, c, rs).devices && id in AllUpserted(f, c, qs).devices
    ensures NowOf(AllUpserted(f, c, rs).devices[id]) == NowOf(AllUpserted(f, c, qs).devices[id])
  {
    PushMergesReadings(f, c, rs, id, name);
    PushMergesReadings(f, c, qs, id, name);
    ReplaysDontMatter(f.devices[id], Named(rs, name), Named(qs, name));
  }

  /**
   The condition is needed: two readings of one instant that disagree leave whichever
   came last, unless both are old news.
   */
  lemma TwoReadingsCommuteExactly(d: Device, q: Reading, r: Reading)
    requires q.at.Some? && r.at.Some? && q.status.Some? && r.status.Some?
    ensures NowOf(Merged(Merged(d, q), r)) == NowOf(Merged(Merged(d, r), q)) <==>
              q.at != r.at || q.status == r.status || (d.lastSeen.Some? && q.at.value < d.lastSeen.value)
  {
  }

  // ------------------------------------------------- tags

  /** A portal edit: the stamp moves only when the tags really change. */
  function Edited(d: Device, tags: Option<Tags>, now: Time): Device {
    d.(tags := tags, editedAt := if d.tags != tags then Some(now) else d.editedAt)
  }

  /** A reading made before the instant t, as far as its stamp can tell. */
  predicate StampedBefore(r: Reading, t: Time) {
    r.stamp.None? || r.stamp.value < t
  }

  /** After the edit, no reading made with settings from before it changes the tags. */
  ghost predicate EditProtects(d: Device, tags: Option<Tags>, now: Time) {
    forall r: Reading :: StampedBefore(r, now) ==> Merged(Edited(d, tags, now), r).tags == tags
  }

  /**
   An edit is protected from older readings exactly when it changed something: an
   edit that repeats the stored tags isn't stamped, and the next reading made with
   the settings before it may still replace them.
   */
  lemma EditsProtectExactly(d: Device, tags: Option<Tags>, now: Time)
    requires d.editedAt.Some? ==> d.editedAt.value < now
    ensures EditProtects(d, tags, now) <==> d.tags != tags
  {
    if d.tags == tags {
      var other: Tags := if tags == Some(map[]) then map["a" := "b"] else map[];
      assert "a" in map["a" := "b"] && Some(other) != tags;
      var r := Reading("", None, None, Some(other), d.editedAt);
      assert StampedBefore(r, now) && Merged(Edited(d, tags, now), r).tags == Some(other);
    }
  }

  /**
   A device, its collector, and the readings the collector has made so far: any
   of them may still arrive, any number of times. epoch counts the edits that
   changed the tags; a reading carries the stamp and the epoch of the pull it was
   made after. answer is what a pull has read that the collector hasn't applied yet.
   */
  datatype Answer = Answer(stamp: Option<Time>, epoch: nat)
  datatype Made = Made(reading: Reading, epoch: nat)
  datatype TagState = TagState(device: Device, epoch: nat, clock: Time,
                               stamp: Option<Time>, pulled: nat, answer: Option<Answer>, spool: seq<Made>)

  datatype TagEvent =
    | Edit(tags: Option<Tags>, now: Time)
    | ReadConfig
    | ApplyConfig
    | Make(reading: Reading)
    | Arrive(k: nat)

  predicate TagEnabled(s: TagState, e: TagEvent) {
    match e
    case Edit(_, now) => s.clock < now
    case Make(r) => r.stamp == s.stamp
    case Arrive(k) => k < |s.spool|
    case ReadConfig => true
    case ApplyConfig => s.answer.Some?
  }

  function TagStep(s: TagState, e: TagEvent): TagState {
    match e
    case Edit(tags, now) =>
      s.(device := Edited(s.device, tags, now), clock := now,
         epoch := if s.device.tags != tags then s.epoch + 1 else s.epoch)
    case ReadConfig => s.(answer := Some(Answer(s.device.editedAt, s.epoch)))
    case ApplyConfig =>
      if s.answer.Some? then s.(stamp := s.answer.value.stamp, pulled := s.answer.value.epoch, answer := None) else s
    case Make(r) => s.(spool := s.spool + [Made(r, s.pulled)])
    case Arrive(k) => if k < |s.spool| then s.(device := Merged(s.device, s.spool[k].reading)) else s
  }

  /** A stamp of an epoch is no later than the device's, and earlier if the epoch is over. */
  predicate StampFits(s: TagState, stamp: Option<Time>, epoch: nat) {
    && epoch <= s.epoch
    && AtMost(stamp, s.device.editedAt)
    && (epoch < s.epoch ==> s.device.editedAt.Some? && (stamp.Some? ==> stamp.value < s.device.editedAt.value))
  }

  predicate TagInv(s: TagState) {
    && AtMost(s.device.editedAt, Some(s.clock))
    && StampFits(s, s.stamp, s.pulled)
    && (s.answer.Some? ==> StampFits(s, s.answer.value.stamp, s.answer.value.epoch))
    && forall k :: 0 <= k < |s.spool| ==> StampFits(s, s.spool[k].reading.stamp, s.spool[k].epoch)
  }

  predicate TagRuns(s: TagState, es: seq<TagEvent>)
    decreases |es|
  {
    es == [] || (TagEnabled(s, es[0]) && TagRuns(TagStep(s, es[0]), es[1..]))
  }

  function TagFinal(s: TagState, es: seq<TagEvent>): TagState
    decreases |es|
  {
    if es == [] then s else TagFinal(TagStep(s, es[0]), es[1..])
  }

  /**
   Some event of the run is an edit that changes the tags, or brings a reading made
   after a pull of the current tags.
   */
  predicate Superseded(s: TagState, es: seq<TagEvent>)
    decreases |es|
  {
    es != [] &&
    (|| (es[0].Edit? && s.device.tags != es[0].tags)
     || (es[0].Arrive? && es[0].k < |s.spool| && s.spool[es[0].k].epoch == s.epoch)
     || Superseded(TagStep(s, es[0]), es[1..]))
  }

  lemma TagStepKeepsInv(s: TagState, e: TagEvent)
    requires TagInv(s) && TagEnabled(s, e)
    ensures TagInv(TagStep(s, e))
  {
    match e
    case Edit(_, _) =>
    case ReadConfig =>
    case ApplyConfig =>
    case Make(_) =>
    case Arrive(_) =>
  }

  /** Any step but an edit, or a reading made after a pull of the current tags, leaves the tags alone. */
  lemma TagStepKeepsTags(s: TagState, e: TagEvent)
    requires TagInv(s) && TagEnabled(s, e)
    requires e.Edit? ==> s.device.tags == e.tags
    requires e.Arrive? ==> s.spool[e.k].epoch != s.epoch
    ensures TagStep(s, e).device.tags == s.device.tags
  {
    if e.Arrive? {
      assert StampFits(s, s.spool[e.k].reading.stamp, s.spool[e.k].epoch);
    }
  }

  lemma {:induction false} TagRunsKeepInv(s: TagState, es: seq<TagEvent>)
    requires TagInv(s) && TagRuns(s, es)
    ensures TagInv(TagFinal(s, es))
    decreases |es|
  {
    if es != [] {
      TagStepKeepsInv(s, es[0]);
      TagRunsKeepInv(TagStep(s, es[0]), es[1..]);
    }
  }

  lemma {:induction false} TagsStayUntilSuperseded(s: TagState, es: seq<TagEvent>)
    requires TagInv(s) && TagRuns(s, es) && !Superseded(s, es)
    ensures TagFinal(s, es).device.tags == s.device.tags
    decreases |es|
  {
    if es != [] {
      TagStepKeepsInv(s, es[0]);
      TagStepKeepsTags(s, es[0]);
      TagsStayUntilSuperseded(TagStep(s, es[0]), es[1..]);
    }
  }

  /**
   Portal tag edits are never undone. In every run of edits, pulls and readings,
   late, repeated or out of order, and with edits between a pull's read and its
   application, the tags of the latest edit that changed them stay until a reading
   arrives that was made after a pull of those very tags.
   */
  lemma PortalTagsStay(s: TagState, tags: Option<Tags>, now: Time, before: seq<TagEvent>, after: seq<TagEvent>)
    requires s.epoch == s.pulled == 0 && s.stamp == s.device.editedAt == None && s.answer == None && s.spool == []
    requires TagRuns(s, before)
    requires var edited := TagFinal(s, before);
             && TagEnabled(edited, Edit(tags, now)) && edited.device.tags != tags
             && TagRuns(TagStep(edited, Edit(tags, now)), after)
             && !Superseded(TagStep(edited, Edit(tags, now)), after)
    ensures TagFinal(TagStep(TagFinal(s, before), Edit(tags, now)), after).device.tags == tags
  {
    TagRunsKeepInv(s, before);
    var edited := TagFinal(s, before);
    TagRunsKeepInv(edited, [Edit(tags, now)]);
    assert [Edit(tags, now)][1..] == [];
    TagsStayUntilSuperseded(TagStep(edited, Edit(tags, now)), after);
  }
}
