/**
 The `_last_flushed` cache and the announcements a flush or a replacement waits for: an entry (Event, v)
 means the stored version and the published marker are both at least v, so an Event the flush skips is
 as persisted and as announced as one it sends.
 */
module FlushCache {
  import opened Common
  import opened SlidingWindow
  import opened Tables
  import opened Pipeline
  import opened Coverage

  /** Stored and marked published at `version` or newer. */
  predicate FlushedAt(events: Rows, ev: EventId, version: int) {
    StoredAt(events, ev, version) && MarkedAt(events, ev, version)
  }

  ghost predicate CacheSound(events: Rows, lastFlushed: map<EventId, int>) {
    forall ev :: ev in lastFlushed ==> FlushedAt(events, ev, lastFlushed[ev])
  }

  predicate Targets(o: Scoring, p: Party, a: Event) {
    p in o.announcers && Pending(a.eventId, a.version) in o.announcers[p].targets
  }

  /** A flush in progress skips only cached Events, and its announcer owes all the others. */
  ghost predicate FlushLinked(o: Scoring, f: Flush, lastFlushed: map<EventId, int>) {
    f.Flushing? ==>
      forall a :: a in f.seen ==> Lookup(lastFlushed, a.eventId) == Some(a.version) || Targets(o, Flusher, a)
  }

  /** A replacement in progress owes the replaced Event's announcement until it is marked. */
  predicate ReplacementLinked(events: Rows, o: Scoring, g: GroupKey, r: Running) {
    && (r.Announcing? && r.active.Some? ==> Targets(o, OfGroup(g), r.active.value))
    && (r.Upserting? && Replaces(r.active, r.updated) ==>
          FlushedAt(events, r.active.value.eventId, r.active.value.version))
  }

  ghost predicate ReplacementsLinked(events: Rows, o: Scoring, running: map<GroupKey, Running>) {
    forall g :: g in running ==> ReplacementLinked(events, o, g, running[g])
  }

  ghost predicate Inv(s: State) {
    && CacheSound(s.t.events, s.lastFlushed)
    && FlushLinked(s.o, s.flush, s.lastFlushed)
    && ReplacementsLinked(s.t.events, s.o, s.running)
  }

  // ----------------------------------------------------------------------------------- the steps

  lemma AdvanceKeepsFlushed(events: Rows, events': Rows, ev: EventId, v: int)
    requires Advances(events, events') && FlushedAt(events, ev, v)
    ensures FlushedAt(events', ev, v)
  {
  }

  lemma AdvanceKeeps(s: State, t': Tables)
    requires Advances(s.t.events, t'.events) && Inv(s)
    ensures Inv(s.(t := t'))
  {
    hide FlushedAt, Advances;
    forall ev, v | FlushedAt(s.t.events, ev, v) ensures FlushedAt(t'.events, ev, v) {
      AdvanceKeepsFlushed(s.t.events, t'.events, ev, v);
    }
  }

  /** When a party is done, every target it owed is marked. */
  lemma DoneMeansFlushed(events: Rows, o: Scoring, p: Party, d: Pending)
    requires AnnouncersOk(events, o) && Done(o, p) && d in o.announcers[p].targets
    ensures FlushedAt(events, d.event, d.version)
  {
    hide Covered;
    assert TargetsOk(events, o.announcers[p]);
    assert Owed(events, o.announcers[p].todo, d);
    assert StoredAt(events, d.event, d.version);
  }

  lemma FlushEndsSound(s: State)
    requires Inv(s) && Coverage.Inv(s.t.events, s.o) && s.flush.Flushing? && Done(s.o, Flusher)
    ensures CacheSound(s.t.events, FlushedVersions(s.flush.seen))
  {
    hide FlushedAt, Covered, TargetsOk;
    var cache := FlushedVersions(s.flush.seen);
    forall ev | ev in cache ensures FlushedAt(s.t.events, ev, cache[ev]) {
      var a :| a in s.flush.seen && a.eventId == ev && a.version == cache[ev];
      if Targets(s.o, Flusher, a) {
        DoneMeansFlushed(s.t.events, s.o, Flusher, Pending(ev, a.version));
      }
    }
  }

  lemma UnchangedFlushSound(s: State)
    requires Inv(s) && s.flush.Scanning? && Changed(s.lastFlushed, s.flush.seen) == []
    ensures CacheSound(s.t.events, FlushedVersions(s.flush.seen))
  {
    hide FlushedAt;
    var cache := FlushedVersions(s.flush.seen);
    forall ev | ev in cache ensures FlushedAt(s.t.events, ev, cache[ev]) {
      var a :| a in s.flush.seen && a.eventId == ev && a.version == cache[ev];
      assert a !in Changed(s.lastFlushed, s.flush.seen);
    }
  }

  lemma PersistStarts(s: State)
    requires Inv(s) && s.flush.Scanning? && Changed(s.lastFlushed, s.flush.seen) != []
    ensures Inv(FlushEffect(s, FlushPersists))
  {
    hide FlushedAt, PersistAll, Advances;
    var changed := Changed(s.lastFlushed, s.flush.seen);
    PersistAllAdvances(s.t, changed);
    AdvanceKeeps(s, PersistAll(s.t, changed));
    var s' := FlushEffect(s, FlushPersists);
    forall a | a in s'.flush.seen
      ensures Lookup(s'.lastFlushed, a.eventId) == Some(a.version) || Targets(s'.o, Flusher, a)
    {
      if a in changed {
        var k :| 0 <= k < |changed| && changed[k] == a;
        assert VersionsOf(changed)[k] == Pending(a.eventId, a.version);
      }
    }
  }

  lemma FlushKeeps(s: State, f: FlushAction)
    requires Inv(s) && Coverage.Inv(s.t.events, s.o) && CanFlush(s, f)
    ensures Inv(FlushEffect(s, f))
  {
    hide FlushedAt, Coverage.Inv, PersistAll, Changed, FlushedVersions;
    match f
    case FlushPersists =>
      if Changed(s.lastFlushed, s.flush.seen) == [] { UnchangedFlushSound(s); } else { PersistStarts(s); }
    case FlushEnds => FlushEndsSound(s);
    case _ =>
  }

  lemma GroupKeeps(cfg: Config, s: State, g: GroupKey, a: GroupAction)
    requires Inv(s) && Coverage.Inv(s.t.events, s.o) && CanGroup(s, g, a)
    ensures Inv(GroupStep(cfg, s, g, a))
  {
    hide FlushedAt, PersistAll, VerdictOf, Coverage.Inv, Advances;
    match a
    case PersistReplaced =>
      var active := [s.running[g].active.value];
      PersistAllAdvances(s.t, active);
      AdvanceKeeps(s, PersistAll(s.t, active));
      assert VersionsOf(active)[0] == Pending(active[0].eventId, active[0].version);
    case ReplacedAnnounced => ReplacedAnnouncedKeeps(cfg, s, g);
    case _ =>
  }

  lemma ReplacedAnnouncedKeeps(cfg: Config, s: State, g: GroupKey)
    requires Inv(s) && Coverage.Inv(s.t.events, s.o) && CanGroup(s, g, ReplacedAnnounced)
    ensures Inv(GroupStep(cfg, s, g, ReplacedAnnounced))
  {
    hide FlushedAt, Covered, TargetsOk;
    var r := s.running[g];
    assert ReplacementLinked(s.t.events, s.o, g, r);
    if r.active.Some? {
      DoneMeansFlushed(s.t.events, s.o, OfGroup(g), Pending(r.active.value.eventId, r.active.value.version));
    }
  }

  lemma AnnounceKeeps(s: State, p: Party, a: AnnounceAction)
    requires Inv(s) && CanAnnounce(s, p, a)
    ensures Inv(AnnounceStep(s, p, a))
  {
    hide FlushedAt, Unpublished, EventsOf, MarkPublished, Advances;
    if a.Mark? {
      var d := s.o.announcers[p].todo[0];
      MarkMovesForward(s.t.events, d.event, d.version);
      AdvanceKeeps(s, s.t.(events := MarkPublished(s.t.events, d.event, d.version)));
    }
  }

  lemma MarkMovesForward(events: Rows, ev: EventId, version: int)
    ensures Advances(events, MarkPublished(events, ev, version))
  {
  }

  lemma StepKeeps(cfg: Config, s: State, a: Action)
    requires Inv(s) && Coverage.Inv(s.t.events, s.o) && Enabled(s, a)
    ensures Inv(Apply(cfg, s, a))
  {
    hide Coverage.Inv, GroupStep, FlushEffect, AnnounceStep, UpstreamStep, ConsumerStep, Scored, AfterCrash, CacheSound;
    hide CanUpstream, CanConsume, CanGroup, CanFlush, CanAnnounce, FlushLinked, ReplacementsLinked, Inv;
    match a
    case Group(g, ga) => GroupKeeps(cfg, s, g, ga);
    case FlushStep(f) => FlushKeeps(s, f);
    case Announce(p, an) => AnnounceKeeps(s, p, an);
    case Upstream(u) => UpstreamKeeps(s, u);
    case Consumer(c) => ConsumerKeeps(s, c);
    case ScoreStep(k, sa) => ScoreKeeps(s, k, sa);
    case Crash => CrashKeeps(s);
  }

  lemma UpstreamKeeps(s: State, u: UpstreamAction)
    requires Inv(s) && CanUpstream(s, u)
    ensures Inv(UpstreamStep(s, u))
  {
    hide FlushedAt;
  }

  lemma ConsumerKeeps(s: State, c: ConsumerAction)
    requires Inv(s) && CanConsume(s, c)
    ensures Inv(ConsumerStep(s, c))
  {
    hide FlushedAt;
  }

  lemma ScoreKeeps(s: State, k: nat, a: ScoreAction)
    requires Inv(s) && CanScore(s, k, a)
    ensures Inv(s.(o := Scored(s.t, s.o, k, a)))
  {
    hide FlushedAt;
  }

  lemma CrashKeeps(s: State)
    requires Inv(s)
    ensures Inv(AfterCrash(s))
  {
  }
}
