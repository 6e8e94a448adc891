/** Every step of the pipeline keeps the ownership invariants. */
module OwnershipSteps {
  import opened Common
  import opened SlidingWindow
  import opened Tables
  import opened Pipeline
  import opened Ownership

  // ------------------------------------------------------------ new rows and newly drawn event ids

  lemma RowGrows(h: History, h': History, entities: map<EntityId, EntityEvent>, entities': map<EntityId, EntityEvent>,
                 ev: EventId, row: EventRow)
    requires Grows(h, h', entities, entities')
    requires RowOk(h, entities, ev, row)
    ensures RowOk(h', entities', ev, row)
  {
    forall e ensures Owns(h', ev, row.version, e) <==> Owns(h, ev, row.version, e) {}
    var lo :| Owns(h, ev, row.version, lo) && Dated(entities, lo, row.firstSeen);
    var hi :| Owns(h, ev, row.version, hi) && Dated(entities, hi, row.lastSeen);
    assert Dated(entities', lo, row.firstSeen) && Dated(entities', hi, row.lastSeen);
    assert Owns(h', ev, row.version, lo) && Owns(h', ev, row.version, hi);
  }

  lemma RunningGrows(cfg: Config, h: History, h': History, t: Tables, t': Tables, store: map<GroupKey, Event>,
                     g: GroupKey, r: Running)
    requires Grows(h, h', t.entities, t'.entities) && t'.events == t.events
    requires RunningOk(cfg, h, t, store, g, r)
    ensures RunningOk(cfg, h', t', store, g, r)
  {
    if !r.Started? && r.active.Some? {
      SnapshotGrows(cfg, h, h', t.entities, t'.entities, r.active.value);
    }
  }

  lemma GrowthKeeps(cfg: Config, s: State, s': State)
    requires Inv(cfg, s)
    requires WellStored(s'.t.entities)
    requires HistoryOk(cfg, s'.h, s'.t.entities)
    requires Grows(s.h, s'.h, s.t.entities, s'.t.entities)
    requires s'.t.events == s.t.events && s'.t.member == s.t.member
    requires s'.store == s.store && s'.queues == s.queues && s'.flush == s.flush
    ensures StoreOk(cfg, s'.h, s'.t.entities, s'.store)
    ensures MembershipExact(s'.h, s'.t) && RowsOk(s'.h, s'.t) && NothingLost(s'.h, s'.t, s'.store)
    ensures QueuesOk(s'.t.entities, s'.queues) && SeenOk(cfg, s'.h, s'.t.entities, Seen(s'.flush))
    ensures AllRunningOk(cfg, s'.h, s'.t, s'.store, s.running)
  {
    forall g | g in s'.store
      ensures s'.store[g].group == g && Snapshot(cfg, s'.h, s'.t.entities, s'.store[g]) && Current(s'.h, s'.store[g])
    {
      SnapshotGrows(cfg, s.h, s'.h, s.t.entities, s'.t.entities, s.store[g]);
    }
    forall ev | ev in s'.t.events ensures RowOk(s'.h, s'.t.entities, ev, s'.t.events[ev]) {
      RowGrows(s.h, s'.h, s.t.entities, s'.t.entities, ev, s.t.events[ev]);
    }
    forall a | a in Seen(s'.flush) ensures Snapshot(cfg, s'.h, s'.t.entities, a) {
      SnapshotGrows(cfg, s.h, s'.h, s.t.entities, s'.t.entities, a);
    }
    forall g | g in s.running ensures RunningOk(cfg, s'.h, s'.t, s'.store, g, s.running[g]) {
      RunningGrows(cfg, s.h, s'.h, s.t, s'.t, s.store, g, s.running[g]);
    }
  }

  lemma HistoryGrows(cfg: Config, h: History, h': History,
                     entities: map<EntityId, EntityEvent>, entities': map<EntityId, EntityEvent>)
    requires Grows(h, h', entities, entities') && HistoryOk(cfg, h, entities)
    ensures HistoryOk(cfg, h', entities')
  {
  }

  lemma UpstreamKeeps(cfg: Config, s: State, u: UpstreamAction)
    requires Inv(cfg, s) && CanUpstream(s, u)
    ensures Inv(cfg, UpstreamStep(s, u))
  {
    hide HistoryOk, StoreOk, MembershipExact, RowsOk, NothingLost, AllRunningOk, QueuesOk, SeenOk;
    if u.StoreEntity? {
      HistoryGrows(cfg, s.h, s.h, s.t.entities, UpstreamStep(s, u).t.entities);
      GrowthKeeps(cfg, s, UpstreamStep(s, u));
    }
  }

  // ---------------------------------------------------------------------------- table updates

  lemma RunningAdvances(cfg: Config, h: History, t: Tables, t': Tables, store: map<GroupKey, Event>,
                        running: map<GroupKey, Running>)
    requires Advances(t.events, t'.events) && t'.entities == t.entities
    requires AllRunningOk(cfg, h, t, store, running)
    ensures AllRunningOk(cfg, h, t', store, running)
  {
    forall g | g in running ensures RunningOk(cfg, h, t', store, g, running[g]) {
      assert RunningOk(cfg, h, t, store, g, running[g]);
    }
  }

  lemma PersistKeeps(cfg: Config, s: State, active: seq<Event>)
    requires Inv(cfg, s)
    requires forall a :: a in active ==> Snapshot(cfg, s.h, s.t.entities, a)
    ensures Inv(cfg, s.(t := PersistAll(s.t, active)))
    ensures forall k :: 0 <= k < |active| ==>
              StoredAt(PersistAll(s.t, active).events, active[k].eventId, active[k].version)
  {
    var t' := PersistAll(s.t, active);
    PersistAllOk(cfg, s.h, s.t, active);
    PersistAllAdvances(s.t, active);
    RunningAdvances(cfg, s.h, s.t, t', s.store, s.running);
  }

  lemma PersistReplacedKeeps(cfg: Config, s: State, g: GroupKey)
    requires Inv(cfg, s) && CanGroup(s, g, PersistReplaced)
    ensures Inv(cfg, GroupStep(cfg, s, g, PersistReplaced))
  {
    hide Snapshot, RowOk, UpdatedOk, MembershipExact, NothingLost;
    var r := s.running[g];
    assert RunningOk(cfg, s.h, s.t, s.store, g, r);
    PersistKeeps(cfg, s, [r.active.value]);
    var t' := PersistAll(s.t, [r.active.value]);
    assert RunningOk(cfg, s.h, t', s.store, g, r);
    assert [r.active.value][0] == r.active.value;
    assert RunningOk(cfg, s.h, t', s.store, g, Announcing(r.job, r.active, r.updated));
  }

  lemma FlushPersistsKeeps(cfg: Config, s: State)
    requires Inv(cfg, s) && CanFlush(s, FlushPersists)
    ensures Inv(cfg, FlushEffect(s, FlushPersists))
  {
    hide WellStored, HistoryOk, StoreOk, MembershipExact, RowsOk, NothingLost, AllRunningOk, QueuesOk, PersistAll,
         Snapshot;
    PersistKeeps(cfg, s, Changed(s.lastFlushed, s.flush.seen));
  }

  lemma MarkAdvances(events: map<EventId, EventRow>, ev: EventId, version: int)
    ensures Advances(events, MarkPublished(events, ev, version))
    ensures ev in events ==> MarkedAt(MarkPublished(events, ev, version), ev, version)
    ensures forall b, v :: StoredAt(MarkPublished(events, ev, version), b, v) <==> StoredAt(events, b, v)
  {
  }

  lemma RowIgnoresMarker(h: History, entities: map<EntityId, EntityEvent>, ev: EventId, row: EventRow, row': EventRow)
    requires RowOk(h, entities, ev, row) && row' == row.(published := row'.published)
    ensures RowOk(h, entities, ev, row')
  {
  }

  lemma MarkKeepsRows(h: History, t: Tables, ev: EventId, version: int)
    requires RowsOk(h, t)
    ensures RowsOk(h, t.(events := MarkPublished(t.events, ev, version)))
  {
    hide RowOk;
    var events' := MarkPublished(t.events, ev, version);
    forall b | b in events' ensures RowOk(h, t.entities, b, events'[b]) {
      RowIgnoresMarker(h, t.entities, b, t.events[b], events'[b]);
    }
  }

  lemma MarkKeeps(cfg: Config, s: State, ev: EventId, version: int)
    requires Inv(cfg, s)
    ensures Inv(cfg, s.(t := s.t.(events := MarkPublished(s.t.events, ev, version))))
  {
    hide Snapshot, UpdatedOk, RunningOk, RowOk, MarkPublished, Advances;
    var t' := s.t.(events := MarkPublished(s.t.events, ev, version));
    MarkAdvances(s.t.events, ev, version);
    RunningAdvances(cfg, s.h, s.t, t', s.store, s.running);
    MarkKeepsRows(s.h, s.t, ev, version);
  }

  // -------------------------------------------------------------------------- the group's job

  lemma LoadKeeps(cfg: Config, s: State, g: GroupKey)
    requires Inv(cfg, s) && CanGroup(s, g, Load)
    ensures Inv(cfg, GroupStep(cfg, s, g, Load))
  {
    hide Spanning, MembershipExact, RowsOk, NothingLost, HistoryOk, SeenOk, QueuesOk, Snapshot, WellStored, JobOk;
    var s' := GroupStep(cfg, s, g, Load);
    assert RunningOk(cfg, s.h, s.t, s.store, g, s.running[g]);
    assert ActiveOk(cfg, s.h, s.t, s.store, g, Lookup(s.store, g));
    assert RunningOk(cfg, s'.h, s'.t, s'.store, g, s'.running[g]);
  }

  /** The duplicate check is complete: an EntityEvent that passes it belongs to no Event yet. */
  lemma PassedCheckMeansUnowned(cfg: Config, s: State, g: GroupKey)
    requires Inv(cfg, s)
    requires g in s.running && s.running[g].Loaded?
    requires var r := s.running[g];
             !(r.active.Some? && r.job.entity in r.active.value.ids) && r.job.entity !in s.t.member
    ensures s.running[g].job.entity !in s.h.owner
  {
    var r := s.running[g];
    var e := r.job.entity;
    assert RunningOk(cfg, s.h, s.t, s.store, g, r);
    if e in s.h.owner {
      assert g in s.store && s.store[g].eventId == s.h.owner[e].event;
      assert Snapshot(cfg, s.h, s.t.entities, s.store[g]) && Current(s.h, s.store[g]);
      assert Owns(s.h, s.store[g].eventId, s.store[g].version, e);
      assert false;
    }
  }

  /** What a job that decided to merge goes on with. */
  lemma DecidedUpdatedOk(cfg: Config, h: History, h': History, t: Tables, store: map<GroupKey, Event>, g: GroupKey,
                         r: Running, newId: EventId, now: int, u: Event)
    requires RunningOk(cfg, h, t, store, g, r) && r.Loaded? && r.job.entity !in h.owner
    requires t.entities[r.job.entity].IsPersistent()
    requires Judge(cfg, r.active, t.entities[r.job.entity], false, newId, now) == Merged(u)
    requires newId !in h.groupOf && (forall ev :: ev in h.latest ==> ev in h.groupOf)
    requires r.active.Some? ==> h.latest[r.active.value.eventId] < now
    requires h' == if u.eventId == newId then h.(groupOf := h.groupOf[newId := g]) else h
    ensures UpdatedOk(cfg, h', t.entities, g, r.job, r.active, u)
  {
    hide Snapshot, Spanning, Fits;
    assert r.active.Some? ==> r.active.value.eventId != newId by {
      if r.active.Some? { SnapshotDrawn(cfg, h, t.entities, r.active.value); }
    }
  }

  lemma SnapshotDrawn(cfg: Config, h: History, entities: map<EntityId, EntityEvent>, a: Event)
    requires Snapshot(cfg, h, entities, a)
    ensures a.eventId in h.latest && a.eventId in h.groupOf && h.groupOf[a.eventId] == a.group
    ensures a.version <= h.latest[a.eventId]
  {
  }

  lemma DecidedOk(cfg: Config, s: State, g: GroupKey, newId: EventId, now: int)
    requires Inv(cfg, s) && CanDecide(s, g, newId, now) && VerdictOf(cfg, s, g, newId, now).Merged?
    ensures var s' := DoDecide(cfg, s, g, newId, now);
            g in s'.running && RunningOk(cfg, s'.h, s'.t, s'.store, g, s'.running[g])
  {
    hide Snapshot, Spanning, RowOk, MembershipExact, NothingLost, StoreOk, UpdatedOk, Fits, MergeOrCreate, QueuesOk,
         SeenOk;
    var r := s.running[g];
    var s' := DoDecide(cfg, s, g, newId, now);
    assert RunningOk(cfg, s.h, s.t, s.store, g, r);
    PassedCheckMeansUnowned(cfg, s, g);
    if r.active.Some? {
      SnapshotDrawn(cfg, s.h, s.t.entities, r.active.value);
      SnapshotGrows(cfg, s.h, s'.h, s.t.entities, s'.t.entities, r.active.value);
    }
    var u := s'.running[g].updated;
    DecidedUpdatedOk(cfg, s.h, s'.h, s.t, s.store, g, r, newId, now, u);
  }

  /** A decision draws at most one event id and touches no other group's job. */
  lemma DecideDraws(cfg: Config, s: State, g: GroupKey, newId: EventId, now: int)
    requires CanDecide(s, g, newId, now)
    ensures var s' := DoDecide(cfg, s, g, newId, now); Grows(s.h, s'.h, s.t.entities, s'.t.entities)
  {
    hide VerdictOf;
  }

  lemma DecideTouchesOnlyItsJob(cfg: Config, s: State, g: GroupKey, newId: EventId, now: int)
    requires CanDecide(s, g, newId, now)
    ensures var s' := DoDecide(cfg, s, g, newId, now);
            && (forall x :: x in s'.running && x != g ==> x in s.running && s'.running[x] == s.running[x])
            && (g in s'.running ==> VerdictOf(cfg, s, g, newId, now).Merged?)
  {
    hide VerdictOf, Replaces;
  }

  lemma DecideKeeps(cfg: Config, s: State, g: GroupKey, newId: EventId, now: int)
    requires Inv(cfg, s) && CanDecide(s, g, newId, now)
    ensures Inv(cfg, DoDecide(cfg, s, g, newId, now))
  {
    hide Snapshot, RowOk, UpdatedOk, MembershipExact, RunningOk, NothingLost, RowsOk, StoreOk, SeenOk, QueuesOk,
         HistoryOk, VerdictOf, AfterVerdict;
    var s' := DoDecide(cfg, s, g, newId, now);
    DecideDraws(cfg, s, g, newId, now);
    HistoryGrows(cfg, s.h, s'.h, s.t.entities, s'.t.entities);
    DecideTouchesOnlyItsJob(cfg, s, g, newId, now);
    GrowthKeeps(cfg, s, s');
    forall x | x in s'.running ensures RunningOk(cfg, s'.h, s'.t, s'.store, x, s'.running[x]) {
      if x == g { DecidedOk(cfg, s, g, newId, now); }
    }
  }

  // ----------------------------------------------------------------------- writing the store

  /** The history step of a group's upsert. */
  lemma UpsertMerges(cfg: Config, s: State, g: GroupKey)
    requires Inv(cfg, s) && g in s.running && s.running[g].Upserting?
    ensures var r := s.running[g]; var s' := DoUpsert(s, g, true);
            HistoryMerges(s.h, s'.h, r.updated.eventId, r.updated.version, r.job.entity)
    ensures var r := s.running[g];
            r.updated.eventId in s.h.groupOf && s.h.groupOf[r.updated.eventId] == g && r.updated.group == g
  {
    assert RunningOk(cfg, s.h, s.t, s.store, g, s.running[g]);
  }

  lemma ExtendedIsSnapshot(cfg: Config, h: History, h': History, entities: map<EntityId, EntityEvent>,
                           a: Event, u: Event, e: EntityId)
    requires Snapshot(cfg, h, entities, a) && Current(h, a)
    requires HistoryMerges(h, h', u.eventId, u.version, e)
    requires forall x :: x in h.owner && h.owner[x].event == a.eventId ==> h.owner[x].version <= h.latest[a.eventId]
    requires u.eventId == a.eventId && u.group == a.group && u.ids == a.ids + [e] && Spanning(cfg, entities, u)
    ensures Snapshot(cfg, h', entities, u)
  {
    hide Spanning;
    forall x ensures x in u.ids <==> Owns(h', u.eventId, u.version, x) {
      assert x in a.ids <==> Owns(h, a.eventId, a.version, x);
      assert x in u.ids <==> x in a.ids || x == e;
    }
    assert e !in a.ids by { assert !Owns(h, a.eventId, a.version, e); }
  }

  lemma StartedIsSnapshot(cfg: Config, h: History, h': History, entities: map<EntityId, EntityEvent>, u: Event,
                          e: EntityId)
    requires HistoryMerges(h, h', u.eventId, u.version, e)
    requires forall x :: x in h.owner ==> h.owner[x].event in h.latest
    requires u.eventId !in h.latest && u.eventId in h.groupOf && h.groupOf[u.eventId] == u.group
    requires u.ids == [e] && Spanning(cfg, entities, u)
    ensures Snapshot(cfg, h', entities, u)
  {
    hide Spanning;
    forall x ensures x in u.ids <==> Owns(h', u.eventId, u.version, x) {
      assert x in u.ids <==> x == e;
    }
  }

  lemma UpsertedIsSnapshot(cfg: Config, s: State, g: GroupKey)
    requires Inv(cfg, s) && g in s.running && s.running[g].Upserting?
    ensures var r := s.running[g]; var s' := DoUpsert(s, g, true);
            Snapshot(cfg, s'.h, s'.t.entities, r.updated) && Current(s'.h, r.updated)
  {
    hide Snapshot, Spanning, RowOk, MembershipExact, NothingLost, StoreOk, QueuesOk, SeenOk;
    var r := s.running[g];
    var u, e := r.updated, r.job.entity;
    var h' := DoUpsert(s, g, true).h;
    assert RunningOk(cfg, s.h, s.t, s.store, g, r);
    UpsertMerges(cfg, s, g);
    if r.active.Some? { SnapshotParts(cfg, s.h, s.t.entities, r.active.value); }
    MergeKeepsSpan(cfg, s.t.entities, r.active, e, u.eventId, u.version);
    if r.active.Some? && Fits(cfg, r.active.value, At(s.t.entities, e)) {
      ExtendedIsSnapshot(cfg, s.h, h', s.t.entities, r.active.value, u, e);
    } else {
      StartedIsSnapshot(cfg, s.h, h', s.t.entities, u, e);
    }
  }

  lemma SnapshotParts(cfg: Config, h: History, entities: map<EntityId, EntityEvent>, a: Event)
    requires Snapshot(cfg, h, entities, a)
    ensures Spanning(cfg, entities, a) && a.ids != []
    ensures a.eventId in h.latest && a.eventId in h.groupOf && h.groupOf[a.eventId] == a.group
  {
    var w :| w in a.ids && Dated(entities, w, a.firstSeen);
  }

  lemma RowSurvivesMerge(h: History, h': History, entities: map<EntityId, EntityEvent>, ev: EventId, v: int,
                         e: EntityId,
                         b: EventId, row: EventRow)
    requires HistoryMerges(h, h', ev, v, e)
    requires RowOk(h, entities, b, row)
    ensures RowOk(h', entities, b, row)
  {
    OwnsUnchanged(h, h', ev, v, e, b, row.version);
    var lo :| Owns(h, b, row.version, lo) && Dated(entities, lo, row.firstSeen);
    var hi :| Owns(h, b, row.version, hi) && Dated(entities, hi, row.lastSeen);
    assert Owns(h', b, row.version, lo) && Owns(h', b, row.version, hi);
  }

  lemma RowsSurviveMerge(h: History, h': History, t: Tables, ev: EventId, v: int, e: EntityId)
    requires HistoryMerges(h, h', ev, v, e)
    requires RowsOk(h, t) && MembershipExact(h, t)
    ensures RowsOk(h', t) && MembershipExact(h', t)
  {
    hide RowSpans;
    forall b | b in t.events ensures RowOk(h', t.entities, b, t.events[b]) {
      RowSurvivesMerge(h, h', t.entities, ev, v, e, b, t.events[b]);
    }
    assert ev in t.events ==> RowOk(h, t.entities, ev, t.events[ev]);
    assert e !in t.member;
  }

  /** What another group's job is to write stays as decided. */
  lemma OtherUpdatedSurvivesMerge(cfg: Config, s: State, g: GroupKey, other: GroupKey)
    requires Inv(cfg, s) && g in s.running && s.running[g].Upserting?
    requires other in s.running && other != g && !s.running[other].Started? && !s.running[other].Loaded?
    ensures var x := s.running[other];
            UpdatedOk(cfg, DoUpsert(s, g, true).h, s.t.entities, other, x.job, x.active, x.updated)
  {
    hide Spanning, Anchored, RowsOk, MembershipExact, NothingLost, QueuesOk, SeenOk, IsLate, Fits, WellStored, StoreOk,
         HistoryOk, Snapshot;
    var x := s.running[other];
    assert RunningOk(cfg, s.h, s.t, s.store, g, s.running[g]);
    assert RunningOk(cfg, s.h, s.t, s.store, other, x);
    UpsertMerges(cfg, s, g);
    if x.active.Some? { SnapshotParts(cfg, s.h, s.t.entities, x.active.value); }
  }

  /** Another group's job is untouched by this group's upsert. */
  lemma OtherRunningSurvivesMerge(cfg: Config, s: State, g: GroupKey, other: GroupKey)
    requires Inv(cfg, s) && g in s.running && s.running[g].Upserting?
    requires other in s.running && other != g
    ensures var s' := DoUpsert(s, g, true);
            RunningOk(cfg, s'.h, s'.t, s'.store, other, s.running[other])
  {
    hide Spanning, Anchored, RowsOk, MembershipExact, NothingLost, QueuesOk, SeenOk, Snapshot, UpdatedOk, WellStored;
    var r := s.running[g];
    var s' := DoUpsert(s, g, true);
    var x := s.running[other];
    assert RunningOk(cfg, s.h, s.t, s.store, other, x);
    UpsertMerges(cfg, s, g);
    if !x.Started? && !x.Loaded? { OtherUpdatedSurvivesMerge(cfg, s, g, other); }
    if !x.Started? && x.active.Some? {
      SnapshotSurvivesMerge(cfg, s.h, s'.h, s.t.entities, r.updated.eventId, r.updated.version, r.job.entity,
          x.active.value);
      SnapshotParts(cfg, s.h, s.t.entities, x.active.value);
      assert x.active.value.eventId != r.updated.eventId;
    }
  }

  lemma UpsertKeepsNothingLost(cfg: Config, s: State, g: GroupKey)
    requires Inv(cfg, s) && g in s.running && s.running[g].Upserting?
    ensures var s' := DoUpsert(s, g, true); NothingLost(s'.h, s'.t, s'.store)
  {
    hide Spanning, Anchored, RowOk, MembershipExact, StoreOk, QueuesOk, SeenOk, Snapshot, UpdatedOk;
    var r := s.running[g];
    var s' := DoUpsert(s, g, true);
    assert RunningOk(cfg, s.h, s.t, s.store, g, r);
    UpsertMerges(cfg, s, g);
    forall x | x in s'.h.owner
      ensures x in s'.t.member ||
              (x in s'.t.entities && s'.t.entities[x].group in s'.store &&
               s'.store[s'.t.entities[x].group].eventId == s'.h.owner[x].event)
    {
      if x != r.job.entity && x !in s.t.member && s.t.entities[x].group == g {
        assert g in s.store && r.active == Some(s.store[g]);
        if Replaces(r.active, r.updated) {
          StoredMeansMapped(cfg, s.h, s.t, r.active.value, x);
        }
      }
    }
  }

  /** What joins an Event is dated no more than the sliding window before the Event's founder. */
  lemma UpsertAnchors(cfg: Config, s: State, g: GroupKey)
    requires Inv(cfg, s) && g in s.running && s.running[g].Upserting?
    ensures var r := s.running[g]; var h' := DoUpsert(s, g, true).h;
            Anchored(cfg, s.t.entities, h'.founder[r.updated.eventId], r.job.entity)
  {
    hide RowOk, MembershipExact, NothingLost, StoreOk, QueuesOk, SeenOk;
    var r := s.running[g];
    assert RunningOk(cfg, s.h, s.t, s.store, g, r);
  }

  lemma UpsertKeepsHistory(cfg: Config, s: State, g: GroupKey)
    requires Inv(cfg, s) && g in s.running && s.running[g].Upserting?
    ensures var s' := DoUpsert(s, g, true); HistoryOk(cfg, s'.h, s'.t.entities)
  {
    hide Snapshot, RowOk, MembershipExact, NothingLost, StoreOk, QueuesOk, SeenOk, ActiveOk, Anchored, UpdatedOk,
         RowsOk, WellStored, Replaces;
    assert RunningOk(cfg, s.h, s.t, s.store, g, s.running[g]);
    UpsertMerges(cfg, s, g);
    UpsertAnchors(cfg, s, g);
  }

  lemma UpsertKeepsCopies(cfg: Config, s: State, g: GroupKey)
    requires Inv(cfg, s) && g in s.running && s.running[g].Upserting?
    ensures var s' := DoUpsert(s, g, true);
            StoreOk(cfg, s'.h, s'.t.entities, s'.store) && SeenOk(cfg, s'.h, s'.t.entities, Seen(s'.flush))
  {
    hide Snapshot, RowOk, MembershipExact, RunningOk, NothingLost, QueuesOk, HistoryOk, Spanning;
    var r := s.running[g];
    var u, e := r.updated, r.job.entity;
    var s' := DoUpsert(s, g, true);
    UpsertMerges(cfg, s, g);
    UpsertedIsSnapshot(cfg, s, g);
    forall x | x in s'.store
      ensures s'.store[x].group == x && Snapshot(cfg, s'.h, s'.t.entities, s'.store[x]) && Current(s'.h, s'.store[x])
    {
      if x != g {
        SnapshotSurvivesMerge(cfg, s.h, s'.h, s.t.entities, u.eventId, u.version, e, s.store[x]);
        SnapshotParts(cfg, s.h, s.t.entities, s.store[x]);
      }
    }
    forall a | a in Seen(s'.flush) ensures Snapshot(cfg, s'.h, s'.t.entities, a) {
      SnapshotSurvivesMerge(cfg, s.h, s'.h, s.t.entities, u.eventId, u.version, e, a);
    }
  }

  lemma UpsertKeeps(cfg: Config, s: State, g: GroupKey, reported: bool)
    requires Inv(cfg, s) && CanGroup(s, g, UpsertActive(reported))
    ensures Inv(cfg, DoUpsert(s, g, reported))
  {
    hide Snapshot, RowOk, UpdatedOk, MembershipExact, RunningOk, NothingLost, StoreOk, SeenOk, RowsOk, HistoryOk,
         QueuesOk;
    var r := s.running[g];
    var s' := DoUpsert(s, g, reported);
    UpsertMerges(cfg, s, g);
    UpsertKeepsHistory(cfg, s, g);
    UpsertKeepsCopies(cfg, s, g);
    RowsSurviveMerge(s.h, s'.h, s.t, r.updated.eventId, r.updated.version, r.job.entity);
    UpsertKeepsNothingLost(cfg, s, g);
    forall x | x in s'.running ensures RunningOk(cfg, s'.h, s'.t, s'.store, x, s'.running[x]) {
      OtherRunningSurvivesMerge(cfg, s, g, x);
    }
  }

  lemma ExpireKeeps(cfg: Config, s: State, g: GroupKey)
    requires Inv(cfg, s) && CanGroup(s, g, Expire)
    ensures Inv(cfg, GroupStep(cfg, s, g, Expire))
  {
    hide Snapshot, RowOk, UpdatedOk;
    var s' := GroupStep(cfg, s, g, Expire);
    forall e | e in s'.h.owner
      ensures e in s'.t.member ||
              (e in s'.t.entities && s'.t.entities[e].group in s'.store &&
               s'.store[s'.t.entities[e].group].eventId == s'.h.owner[e].event)
    {
      if e !in s.t.member && s.t.entities[e].group == g {
        StoredMeansMapped(cfg, s.h, s.t, s.store[g], e);
      }
    }
    forall x | x in s'.running ensures RunningOk(cfg, s'.h, s'.t, s'.store, x, s'.running[x]) {
      assert RunningOk(cfg, s.h, s.t, s.store, x, s.running[x]);
    }
  }

  lemma EnqueueKeeps(cfg: Config, s: State, m: MsgId)
    requires Inv(cfg, s) && CanConsume(s, Enqueue(m))
    ensures Inv(cfg, ConsumerStep(s, Enqueue(m)))
  {
  }

  lemma BeginKeeps(cfg: Config, s: State, g: GroupKey)
    requires Inv(cfg, s) && CanGroup(s, g, Begin)
    ensures Inv(cfg, GroupStep(cfg, s, g, Begin))
  {
    hide WellStored, HistoryOk, StoreOk, MembershipExact, RowsOk, NothingLost, SeenOk;
    var s' := GroupStep(cfg, s, g, Begin);
    assert JobOk(s.t.entities, g, s.queues[g][0]);
    forall x, k | x in s'.queues && 0 <= k < |s'.queues[x]| ensures JobOk(s'.t.entities, x, s'.queues[x][k]) {
      if x == g { assert s'.queues[x][k] == s.queues[x][k + 1]; }
    }
  }

  /** Jobs that end, and work that is abandoned, leave every other job as it was. */
  lemma FewerJobsKeep(cfg: Config, s: State, s': State)
    requires Inv(cfg, s)
    requires s'.h == s.h && s'.t == s.t && s'.store == s.store && s'.flush == s.flush
    requires forall g :: g in s'.running ==> g in s.running && s'.running[g] == s.running[g]
    requires forall g :: g in s'.queues ==> g in s.queues && s'.queues[g] == s.queues[g]
    ensures Inv(cfg, s')
  {
    hide Snapshot, RowOk, MembershipExact, RunningOk, NothingLost, StoreOk, SeenOk, RowsOk, HistoryOk, WellStored,
         JobOk;
  }

  lemma ScanKeeps(cfg: Config, s: State, s': State)
    requires Inv(cfg, s)
    requires s'.h == s.h && s'.t == s.t && s'.store == s.store && s'.running == s.running && s'.queues == s.queues
    requires forall a :: a in Seen(s'.flush) ==> a in Seen(s.flush) || exists g :: g in s.store && s.store[g] == a
    ensures Inv(cfg, s')
  {
    hide Snapshot, RowOk, MembershipExact, RunningOk, NothingLost, RowsOk, HistoryOk, WellStored, QueuesOk,
         AllRunningOk;
  }

  lemma ReplacedAnnouncedKeeps(cfg: Config, s: State, g: GroupKey)
    requires Inv(cfg, s) && CanGroup(s, g, ReplacedAnnounced)
    ensures Inv(cfg, GroupStep(cfg, s, g, ReplacedAnnounced))
  {
    hide Snapshot, RowOk, MembershipExact, NothingLost, StoreOk, SeenOk, RowsOk, HistoryOk, WellStored, JobOk,
         UpdatedOk, ActiveOk;
    var s' := GroupStep(cfg, s, g, ReplacedAnnounced);
    assert RunningOk(cfg, s.h, s.t, s.store, g, s.running[g]);
    assert RunningOk(cfg, s'.h, s'.t, s'.store, g, s'.running[g]);
  }

  lemma ConsumerKeeps(cfg: Config, s: State, c: ConsumerAction)
    requires Inv(cfg, s) && CanConsume(s, c)
    ensures Inv(cfg, ConsumerStep(s, c))
  {
    hide WellStored, HistoryOk, StoreOk, MembershipExact, RowsOk, NothingLost, AllRunningOk, QueuesOk, SeenOk;
    if c.Enqueue? { EnqueueKeeps(cfg, s, c.m); }
  }

  lemma GroupKeeps(cfg: Config, s: State, g: GroupKey, a: GroupAction)
    requires Inv(cfg, s) && CanGroup(s, g, a)
    ensures Inv(cfg, GroupStep(cfg, s, g, a))
  {
    hide WellStored, HistoryOk, StoreOk, MembershipExact, RowsOk, NothingLost, AllRunningOk, QueuesOk, SeenOk;
    hide DoDecide, DoUpsert, PersistAll, CanDecide;
    match a
    case Begin => BeginKeeps(cfg, s, g);
    case Load => LoadKeeps(cfg, s, g);
    case Decide(newId, now) => DecideKeeps(cfg, s, g, newId, now);
    case PersistReplaced => PersistReplacedKeeps(cfg, s, g);
    case ReplacedAnnounced => ReplacedAnnouncedKeeps(cfg, s, g);
    case UpsertActive(reported) => UpsertKeeps(cfg, s, g, reported);
    case Expire => ExpireKeeps(cfg, s, g);
    case JobFails => FewerJobsKeep(cfg, s, GroupStep(cfg, s, g, a));
    case GroupCloses => FewerJobsKeep(cfg, s, GroupStep(cfg, s, g, a));
  }

  lemma FlushKeeps(cfg: Config, s: State, f: FlushAction)
    requires Inv(cfg, s) && CanFlush(s, f)
    ensures Inv(cfg, FlushEffect(s, f))
  {
    hide WellStored, HistoryOk, StoreOk, MembershipExact, RowsOk, NothingLost, AllRunningOk, QueuesOk, SeenOk;
    hide PersistAll, Changed, FlushedVersions;
    if f.FlushPersists? {
      FlushPersistsKeeps(cfg, s);
    } else {
      ScanKeeps(cfg, s, FlushEffect(s, f));
    }
  }

  lemma AnnounceKeeps(cfg: Config, s: State, p: Party, a: AnnounceAction)
    requires Inv(cfg, s) && CanAnnounce(s, p, a)
    ensures Inv(cfg, AnnounceStep(s, p, a))
  {
    hide WellStored, HistoryOk, StoreOk, MembershipExact, RowsOk, NothingLost, AllRunningOk, QueuesOk, SeenOk;
    hide Unpublished, EventsOf, MarkPublished;
    if a.Mark? {
      var d := s.o.announcers[p].todo[0];
      MarkKeeps(cfg, s, d.event, d.version);
    }
  }

  lemma CrashKeeps(cfg: Config, s: State)
    requires Inv(cfg, s)
    ensures Inv(cfg, AfterCrash(s))
  {
    hide Snapshot, RowOk, MembershipExact, RunningOk, NothingLost, StoreOk, RowsOk, HistoryOk, WellStored, JobOk;
  }

  lemma StepKeeps(cfg: Config, s: State, a: Action)
    requires Inv(cfg, s) && Enabled(s, a)
    ensures Inv(cfg, Apply(cfg, s, a))
  {
    hide WellStored, HistoryOk, StoreOk, MembershipExact, RowsOk, NothingLost, AllRunningOk, QueuesOk, SeenOk;
    hide UpstreamStep, ConsumerStep, GroupStep, FlushEffect, AnnounceStep, Scored, AfterCrash;
    hide CanUpstream, CanConsume, CanGroup, CanFlush, CanAnnounce;
    match a
    case Upstream(u) => UpstreamKeeps(cfg, s, u);
    case Consumer(c) => ConsumerKeeps(cfg, s, c);
    case Group(g, ga) => GroupKeeps(cfg, s, g, ga);
    case FlushStep(f) => FlushKeeps(cfg, s, f);
    case Announce(p, an) => AnnounceKeeps(cfg, s, p, an);
    case ScoreStep(_, _) =>
    case Crash => CrashKeeps(cfg, s);
  }
}
