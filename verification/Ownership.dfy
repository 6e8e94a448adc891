/**
 Which Event each EntityEvent belongs to. The invariants below hold in every reachable state of the
 pipeline: an EntityEvent enters at most one Event and at most once in its id list, every copy of an
 Event anywhere lists exactly the EntityEvents merged up to its version, event_entity_map agrees with
 the version stored in `events`, and no merged EntityEvent is in neither Redis nor Postgres.
 */
module Ownership {
  import opened Common
  import opened SlidingWindow
  import opened Tables
  import opened Pipeline

  /** `e` entered Event `ev` at version `v` or before. */
  predicate Owns(h: History, ev: EventId, v: int, e: EntityId) {
    e in h.owner && h.owner[e].event == ev && h.owner[e].version <= v
  }

  /** `a` is a faithful copy of some version of its Event, current or stale. */
  ghost predicate Snapshot(cfg: Config, h: History, entities: map<EntityId, EntityEvent>, a: Event) {
    && a.eventId in h.latest && a.version <= h.latest[a.eventId]
    && a.eventId in h.groupOf && h.groupOf[a.eventId] == a.group
    && Distinct(a.ids)
    && (forall e :: e in a.ids <==> Owns(h, a.eventId, a.version, e))
    && a.eventId in h.founder && h.founder[a.eventId] in a.ids
    && Spanning(cfg, entities, a)
  }

  predicate Current(h: History, a: Event) {
    a.eventId in h.latest && h.latest[a.eventId] == a.version
  }

  /** `e` is its Event's founder, or dated no more than the sliding window before it. */
  predicate Anchored(cfg: Config, entities: map<EntityId, EntityEvent>, founder: EntityId, e: EntityId) {
    e == founder ||
    (&& e in entities && entities[e].IsPersistent() && founder in entities && entities[founder].IsPersistent()
     && At(entities, founder) - At(entities, e) <= cfg.windowHours * HOUR)
  }

  ghost predicate HistoryOk(cfg: Config, h: History, entities: map<EntityId, EntityEvent>) {
    && (forall ev :: ev in h.latest ==> ev in h.groupOf && ev in h.founder)
    && (forall e :: e in h.owner ==>
          && e in entities
          && h.owner[e].event in h.latest
          && h.owner[e].version <= h.latest[h.owner[e].event]
          && h.groupOf[h.owner[e].event] == entities[e].group
          && Anchored(cfg, entities, h.founder[h.owner[e].event], e))
  }

  ghost predicate StoreOk(cfg: Config, h: History, entities: map<EntityId, EntityEvent>, store: map<GroupKey, Event>) {
    forall g :: g in store ==>
      store[g].group == g && Snapshot(cfg, h, entities, store[g]) && Current(h, store[g])
  }

  /** An EntityEvent is mapped exactly when the stored version of its Event includes it. */
  ghost predicate MembershipExact(h: History, t: Tables) {
    && (forall e :: e in t.member ==> e in h.owner && h.owner[e].event == t.member[e])
    && (forall e :: e in h.owner ==>
          (e in t.member <==> StoredAt(t.events, h.owner[e].event, h.owner[e].version)))
  }

  /** An events row dates exactly the EntityEvents of its version. */
  ghost predicate RowSpans(h: History, entities: map<EntityId, EntityEvent>, ev: EventId, row: EventRow) {
    && (forall e :: Owns(h, ev, row.version, e) ==>
          e in entities && entities[e].IsPersistent() && row.firstSeen <= At(entities, e) <= row.lastSeen)
    && (exists e :: Owns(h, ev, row.version, e) && Dated(entities, e, row.firstSeen))
    && (exists e :: Owns(h, ev, row.version, e) && Dated(entities, e, row.lastSeen))
  }

  ghost predicate RowOk(h: History, entities: map<EntityId, EntityEvent>, ev: EventId, row: EventRow) {
    && ev in h.latest && row.version <= h.latest[ev]
    && ev in h.groupOf && row.group == h.groupOf[ev]
    && RowSpans(h, entities, ev, row)
  }

  ghost predicate RowsOk(h: History, t: Tables) {
    forall ev :: ev in t.events ==> RowOk(h, t.entities, ev, t.events[ev])
  }

  /** Every merged EntityEvent is mapped in Postgres, or its Event is its group's active Event. */
  ghost predicate NothingLost(h: History, t: Tables, store: map<GroupKey, Event>) {
    forall e :: e in h.owner ==>
      || e in t.member
      || (e in t.entities && t.entities[e].group in store && store[t.entities[e].group].eventId == h.owner[e].event)
  }

  predicate JobOk(entities: map<EntityId, EntityEvent>, g: GroupKey, j: Job) {
    j.entity in entities && entities[j.entity].group == g
  }

  /** What a job read as its group's active Event still is, unless it has expired since. */
  ghost predicate ActiveOk(cfg: Config, h: History, t: Tables, store: map<GroupKey, Event>, g: GroupKey,
                           active: Option<Event>)
  {
    && (g in store ==> active == Some(store[g]))
    && (active.Some? ==>
          && active.value.group == g
          && Snapshot(cfg, h, t.entities, active.value)
          && Current(h, active.value)
          && (g !in store ==> StoredAt(t.events, active.value.eventId, active.value.version)))
  }

  ghost predicate UpdatedOk(cfg: Config, h: History, entities: map<EntityId, EntityEvent>, g: GroupKey, j: Job,
                            active: Option<Event>, u: Event)
  {
    && j.entity !in h.owner
    && j.entity in entities && entities[j.entity].IsPersistent()
    && (active.Some? ==> !IsLate(cfg, active.value, entities[j.entity]))
    && MergeOrCreate(cfg, active, entities[j.entity], u.eventId, u.version) == Ok(u)
    && (if active.Some? && Fits(cfg, active.value, At(entities, j.entity)) then
          u.eventId in h.latest && h.latest[u.eventId] < u.version
        else
          u.eventId !in h.latest && u.eventId in h.groupOf && h.groupOf[u.eventId] == g)
  }

  ghost predicate RunningOk(cfg: Config, h: History, t: Tables, store: map<GroupKey, Event>, g: GroupKey, r: Running) {
    && JobOk(t.entities, g, r.job)
    && (!r.Started? ==> ActiveOk(cfg, h, t, store, g, r.active))
    && (!r.Started? && !r.Loaded? ==> UpdatedOk(cfg, h, t.entities, g, r.job, r.active, r.updated))
    && ((r.Announcing? || r.Upserting?) && Replaces(r.active, r.updated) ==>
          StoredAt(t.events, r.active.value.eventId, r.active.value.version))
    && (r.Announcing? || r.Replacing? ==> Replaces(r.active, r.updated))
  }

  ghost predicate AllRunningOk(cfg: Config, h: History, t: Tables, store: map<GroupKey, Event>,
                               running: map<GroupKey, Running>)
  {
    forall g :: g in running ==> RunningOk(cfg, h, t, store, g, running[g])
  }

  ghost predicate QueuesOk(entities: map<EntityId, EntityEvent>, queues: map<GroupKey, seq<Job>>) {
    forall g, k :: g in queues && 0 <= k < |queues[g]| ==> JobOk(entities, g, queues[g][k])
  }

  function Seen(f: Flush): seq<Event> { if f.Idle? then [] else f.seen }

  ghost predicate SeenOk(cfg: Config, h: History, entities: map<EntityId, EntityEvent>, seen: seq<Event>) {
    forall a :: a in seen ==> Snapshot(cfg, h, entities, a)
  }

  ghost predicate Inv(cfg: Config, s: State) {
    && WellStored(s.t.entities)
    && HistoryOk(cfg, s.h, s.t.entities)
    && StoreOk(cfg, s.h, s.t.entities, s.store)
    && MembershipExact(s.h, s.t)
    && RowsOk(s.h, s.t)
    && NothingLost(s.h, s.t, s.store)
    && AllRunningOk(cfg, s.h, s.t, s.store, s.running)
    && QueuesOk(s.t.entities, s.queues)
    && SeenOk(cfg, s.h, s.t.entities, Seen(s.flush))
  }

  // ------------------------------------------------------------------ what keeps a copy faithful

  /** The history after a merge of `e` into `ev` at version `v`. */
  ghost predicate HistoryMerges(h: History, h': History, ev: EventId, v: int, e: EntityId) {
    && e !in h.owner
    && (ev in h.latest ==> h.latest[ev] < v)
    && h' == Recorded(h, ev, v, e)
  }

  /** More rows, and more event ids drawn, with nothing taken back. */
  ghost predicate Grows(h: History, h': History, entities: map<EntityId, EntityEvent>,
                        entities': map<EntityId, EntityEvent>)
  {
    && h'.owner == h.owner && h'.latest == h.latest && h'.founder == h.founder
    && (forall ev :: ev in h.groupOf ==> ev in h'.groupOf && h'.groupOf[ev] == h.groupOf[ev])
    && (forall e :: e in entities ==> e in entities' && entities'[e] == entities[e])
  }

  lemma SpanningGrows(cfg: Config, entities: map<EntityId, EntityEvent>, entities': map<EntityId, EntityEvent>,
                      a: Event)
    requires forall e :: e in entities ==> e in entities' && entities'[e] == entities[e]
    requires Spanning(cfg, entities, a)
    ensures Spanning(cfg, entities', a)
  {
    var lo :| lo in a.ids && Dated(entities, lo, a.firstSeen);
    var hi :| hi in a.ids && Dated(entities, hi, a.lastSeen);
    assert Dated(entities', lo, a.firstSeen) && Dated(entities', hi, a.lastSeen);
    forall e, at | e in a.ids && Dated(entities', e, at) && at < a.lastSeen
      ensures exists x :: x in a.ids && Follows(cfg, entities', e, x)
    {
      assert Dated(entities, e, at);
      var x :| x in a.ids && Follows(cfg, entities, e, x);
      assert Follows(cfg, entities', e, x);
    }
  }

  lemma SnapshotGrows(cfg: Config, h: History, h': History,
                      entities: map<EntityId, EntityEvent>, entities': map<EntityId, EntityEvent>, a: Event)
    requires Grows(h, h', entities, entities')
    requires Snapshot(cfg, h, entities, a)
    ensures Snapshot(cfg, h', entities', a)
  {
    SpanningGrows(cfg, entities, entities', a);
    forall e ensures e in a.ids <==> Owns(h', a.eventId, a.version, e) {
      assert Owns(h', a.eventId, a.version, e) == Owns(h, a.eventId, a.version, e);
    }
  }

  /** A merge changes no earlier version's constituents. */
  lemma OwnsUnchanged(h: History, h': History, ev: EventId, v: int, e: EntityId, b: EventId, w: int)
    requires HistoryMerges(h, h', ev, v, e)
    requires b in h.latest && w <= h.latest[b]
    ensures forall x :: Owns(h', b, w, x) <==> Owns(h, b, w, x)
  {
  }

  lemma SnapshotSurvivesMerge(cfg: Config, h: History, h': History, entities: map<EntityId, EntityEvent>,
                              ev: EventId, v: int, e: EntityId, a: Event)
    requires HistoryMerges(h, h', ev, v, e)
    requires Snapshot(cfg, h, entities, a)
    ensures Snapshot(cfg, h', entities, a)
  {
    OwnsUnchanged(h, h', ev, v, e, a.eventId, a.version);
  }

  // --------------------------------------------------------------------------- persisting copies

  lemma PersistOneExact(cfg: Config, h: History, t: Tables, a: Event)
    requires HistoryOk(cfg, h, t.entities)
    requires MembershipExact(h, t)
    requires Snapshot(cfg, h, t.entities, a)
    ensures MembershipExact(h, PersistOne(t, a))
  {
    var t' := PersistOne(t, a);
    forall e | e in h.owner
      ensures e in t'.member <==> StoredAt(t'.events, h.owner[e].event, h.owner[e].version)
    {
      assert e in t'.member <==> e in t.member || e in a.ids;
      assert e in a.ids <==> Owns(h, a.eventId, a.version, e);
    }
    forall e | e in t'.member
      ensures e in h.owner && h.owner[e].event == t'.member[e]
    {
      if e !in t.member {
        assert e in a.ids;
        assert Owns(h, a.eventId, a.version, e);
      }
    }
  }

  lemma SnapshotRowSpans(cfg: Config, h: History, entities: map<EntityId, EntityEvent>, a: Event, row: EventRow)
    requires Snapshot(cfg, h, entities, a)
    requires row.firstSeen == a.firstSeen && row.lastSeen == a.lastSeen && row.version == a.version
    ensures RowSpans(h, entities, a.eventId, row)
  {
    forall e | Owns(h, a.eventId, row.version, e)
      ensures e in entities && entities[e].IsPersistent() && row.firstSeen <= At(entities, e) <= row.lastSeen
    {
      assert e in a.ids;
    }
    var lo :| lo in a.ids && Dated(entities, lo, a.firstSeen);
    var hi :| hi in a.ids && Dated(entities, hi, a.lastSeen);
    assert Owns(h, a.eventId, row.version, lo) && Owns(h, a.eventId, row.version, hi);
  }

  lemma PersistOneRows(cfg: Config, h: History, t: Tables, a: Event)
    requires RowsOk(h, t)
    requires Snapshot(cfg, h, t.entities, a)
    ensures RowsOk(h, PersistOne(t, a))
  {
    var events' := Upsert(t.events, a);
    if Newer(t.events, a.eventId, a.version) {
      var row := events'[a.eventId];
      SnapshotRowSpans(cfg, h, t.entities, a, row);
      assert a.eventId in t.events ==> RowOk(h, t.entities, a.eventId, t.events[a.eventId]);
      assert RowOk(h, t.entities, a.eventId, row);
    }
  }

  lemma {:induction false} PersistAllOk(cfg: Config, h: History, t: Tables, active: seq<Event>)
    requires HistoryOk(cfg, h, t.entities)
    requires MembershipExact(h, t) && RowsOk(h, t)
    requires forall a :: a in active ==> Snapshot(cfg, h, t.entities, a)
    ensures var t' := PersistAll(t, active);
            MembershipExact(h, t') && RowsOk(h, t') && t'.entities == t.entities
    ensures forall e :: e in t.member ==> e in PersistAll(t, active).member
  {
    if active == [] {
    } else {
      var init := active[..|active| - 1];
      var a := active[|active| - 1];
      assert forall b :: b in init ==> b in active;
      PersistAllOk(cfg, h, t, init);
      PersistOneExact(cfg, h, PersistAll(t, init), a);
      PersistOneRows(cfg, h, PersistAll(t, init), a);
    }
  }

  /** A persisted current copy leaves none of its Event's EntityEvents unmapped. */
  lemma StoredMeansMapped(cfg: Config, h: History, t: Tables, a: Event, e: EntityId)
    requires HistoryOk(cfg, h, t.entities) && MembershipExact(h, t)
    requires Current(h, a) && StoredAt(t.events, a.eventId, a.version)
    requires e in h.owner && h.owner[e].event == a.eventId
    ensures e in t.member
  {
  }
}
