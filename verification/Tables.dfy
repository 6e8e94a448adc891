/**
 The Postgres tables `entity_events`, `events` and `event_entity_map` and the SQL statements of
 app/persistent/event_repository.py that read and write them.
 */
module Tables {
  import opened Common
  import opened SlidingWindow

  /** An events row. `published` is published_aggregation_updated_at, the outbox marker. */
  datatype EventRow = EventRow(
    group: GroupKey, firstSeen: int, lastSeen: int, version: int, published: Option<int>)
  {
    /** The current version has not been marked published. */
    predicate Behind() { published.None? || published.value < version }
  }

  /** `member` is event_entity_map, whose entity_event_id is unique. */
  datatype Tables = Tables(
    entities: map<EntityId, EntityEvent>,
    events: map<EventId, EventRow>,
    member: map<EntityId, EventId>)

  /** An upsert at `version` writes: the Event has no row, or an older one. */
  predicate Newer(events: map<EventId, EventRow>, ev: EventId, version: int) {
    ev !in events || events[ev].version < version
  }

  /** The guarded upsert: only a newer merge state is written, and the marker is kept. */
  function Upsert(events: map<EventId, EventRow>, a: Event): map<EventId, EventRow> {
    if a.eventId !in events then
      events[a.eventId := EventRow(a.group, a.firstSeen, a.lastSeen, a.version, None)]
    else if events[a.eventId].version < a.version then
      events[a.eventId := events[a.eventId].(firstSeen := a.firstSeen, lastSeen := a.lastSeen, version := a.version)]
    else
      events
  }

  /** Every membership insert of one Event: ON CONFLICT DO NOTHING keeps an existing row. */
  function InsertMembers(member: map<EntityId, EventId>, ev: EventId, ids: seq<EntityId>): map<EntityId, EventId> {
    (map e | e in ids :: ev) + member
  }

  function PersistOne(t: Tables, a: Event): Tables {
    t.(events := Upsert(t.events, a), member := InsertMembers(t.member, a.eventId, a.ids))
  }

  /** persist_events as one committed transaction. */
  function PersistAll(t: Tables, active: seq<Event>): Tables {
    if active == [] then t
    else PersistOne(PersistAll(t, active[..|active| - 1]), active[|active| - 1])
  }

  /** The forward-only marker update. */
  function MarkPublished(events: map<EventId, EventRow>, ev: EventId, version: int): map<EventId, EventRow> {
    if ev in events && (events[ev].published.None? || events[ev].published.value < version) then
      events[ev := events[ev].(published := Some(version))]
    else
      events
  }

  /** One announcement owed: an Event, and the version read for it. */
  datatype Pending = Pending(event: EventId, version: int)

  /** `todo` lists, in some order, the rows of `ids` whose current version is not marked published. */
  ghost predicate Unpublished(events: map<EventId, EventRow>, ids: set<EventId>, todo: seq<Pending>) {
    && (forall k :: 0 <= k < |todo| ==>
          && todo[k].event in ids && todo[k].event in events
          && todo[k].version == events[todo[k].event].version
          && events[todo[k].event].Behind())
    && (forall ev :: ev in ids && ev in events && events[ev].Behind() ==>
          Pending(ev, events[ev].version) in todo)
    && Distinct(todo)
  }

  /** Stored at `version` or newer. */
  predicate StoredAt(events: map<EventId, EventRow>, ev: EventId, version: int) {
    ev in events && events[ev].version >= version
  }

  /** Marked published at `version` or newer. */
  predicate MarkedAt(events: map<EventId, EventRow>, ev: EventId, version: int) {
    ev in events && events[ev].published.Some? && events[ev].published.value >= version
  }

  /** Rows are never removed, and neither versions nor markers go back. */
  ghost predicate Advances(old_: map<EventId, EventRow>, new_: map<EventId, EventRow>) {
    forall ev :: ev in old_ ==>
      && ev in new_
      && old_[ev].version <= new_[ev].version
      && (old_[ev].published.Some? ==>
            new_[ev].published.Some? && old_[ev].published.value <= new_[ev].published.value)
  }

  lemma UpsertAdvances(events: map<EventId, EventRow>, a: Event)
    ensures Advances(events, Upsert(events, a)) && StoredAt(Upsert(events, a), a.eventId, a.version)
  {
  }

  lemma AdvanceKeepsStored(old_: map<EventId, EventRow>, new_: map<EventId, EventRow>)
    requires Advances(old_, new_)
    ensures forall ev, v :: StoredAt(old_, ev, v) ==> StoredAt(new_, ev, v)
    ensures forall ev, v :: MarkedAt(old_, ev, v) ==> MarkedAt(new_, ev, v)
  {
  }

  lemma AdvancesTransitive(a: map<EventId, EventRow>, b: map<EventId, EventRow>, c: map<EventId, EventRow>)
    requires Advances(a, b) && Advances(b, c)
    ensures Advances(a, c)
  {
  }

  lemma {:induction false} PersistAllAdvances(t: Tables, active: seq<Event>)
    ensures Advances(t.events, PersistAll(t, active).events)
    ensures forall k :: 0 <= k < |active| ==>
              StoredAt(PersistAll(t, active).events, active[k].eventId, active[k].version)
    ensures PersistAll(t, active).entities == t.entities
  {
    hide Upsert, Advances, InsertMembers;
    if active == [] {
      AdvancesReflexive(t.events);
    } else {
      var n := |active| - 1;
      PersistAllAdvances(t, active[..n]);
      var before, after := PersistAll(t, active[..n]).events, PersistAll(t, active).events;
      UpsertAdvances(before, active[n]);
      AdvanceKeepsStored(before, after);
      AdvancesTransitive(t.events, before, after);
      forall k | 0 <= k < |active| ensures StoredAt(after, active[k].eventId, active[k].version) {
        assert k < n ==> active[..n][k] == active[k];
      }
    }
  }

  /** The first of these Events that lists `e`. */
  function FirstLister(active: seq<Event>, e: EntityId): (r: Option<EventId>)
    ensures r.None? <==> forall k :: 0 <= k < |active| ==> e !in active[k].ids
  {
    if active == [] then None
    else if e in active[0].ids then Some(active[0].eventId)
    else
      assert forall k :: 0 < k < |active| ==> active[k] == active[1..][k - 1];
      FirstLister(active[1..], e)
  }

  lemma {:induction false} OneMoreLister(active: seq<Event>, a: Event, e: EntityId)
    ensures FirstLister(active + [a], e) ==
            if FirstLister(active, e).Some? then FirstLister(active, e)
            else if e in a.ids then Some(a.eventId) else None
  {
    if active == [] {
      assert ([a])[1..] == [];
    } else {
      OneMoreLister(active[1..], a, e);
      assert (active + [a])[1..] == active[1..] + [a];
    }
  }

  /** An existing membership keeps its Event; else the EntityEvent goes to the first Event that lists it, if any. */
  lemma {:induction false} MembershipsAreKept(t: Tables, active: seq<Event>, e: EntityId)
    ensures var member := PersistAll(t, active).member;
            (if e in member then Some(member[e]) else None) ==
              if e in t.member then Some(t.member[e]) else FirstLister(active, e)
  {
    if active == [] {
    } else {
      var n := |active| - 1;
      MembershipsAreKept(t, active[..n], e);
      OneMoreLister(active[..n], active[n], e);
      assert active[..n] + [active[n]] == active;
      hide FirstLister, Upsert;
    }
  }

  lemma AdvancesReflexive(events: map<EventId, EventRow>)
    ensures Advances(events, events)
  {
  }

  /**
   The EventRepository of event_repository.py: the tables are its mutable state, and persist_events
   runs its statements on a transaction that is committed only if every one of them succeeds.
   */
  class EventRepository {
    var events: map<EventId, EventRow>
    var member: map<EntityId, EventId>
    const entities: map<EntityId, EntityEvent>

    function Contents(): Tables
      reads this
    {
      Tables(entities, events, member)
    }

    constructor (t: Tables)
      ensures Contents() == t
    {
      entities, events, member := t.entities, t.events, t.member;
    }

    static lemma NoneToInsert(members: map<EntityId, EventId>, ev: EventId)
      ensures InsertMembers(members, ev, []) == members
    {
    }

    static lemma OneMoreToInsert(members: map<EntityId, EventId>, ev: EventId, ids: seq<EntityId>, e: EntityId)
      ensures var tx := InsertMembers(members, ev, ids);
              InsertMembers(members, ev, ids + [e]) == if e in tx then tx else tx[e := ev]
    {
    }

    /** One Event's membership inserts, on the transaction's copy of event_entity_map. */
    method InsertEach(members: map<EntityId, EventId>, ev: EventId, ids: seq<EntityId>, first: nat,
                      failsAt: Option<nat>)
      returns (after: Option<map<EntityId, EventId>>)
      ensures after.Some? ==> after.value == InsertMembers(members, ev, ids)
      ensures after.None? <==> failsAt.Some? && first <= failsAt.value < first + |ids|
    {
      hide InsertMembers;
      var tx: map<EntityId, EventId> := members;
      NoneToInsert(members, ev);
      for j := 0 to |ids|
        invariant tx == InsertMembers(members, ev, ids[..j])
        invariant failsAt.Some? ==> !(first <= failsAt.value < first + j)
      {
        if failsAt == Some(first + j) { return None; }
        if ids[j] !in tx {
          tx := tx[ids[j] := ev];
        }
        OneMoreToInsert(members, ev, ids[..j], ids[j]);
        assert ids[..j + 1] == ids[..j] + [ids[j]];
      }
      assert ids[..|ids|] == ids;
      after := Some(tx);
    }

    /**
     Writes the active Events and their memberships as one unit; `failsAt` is the statement at which
     the database fails, if it does. Returns the Events written: new ones, and ones now newer.
     */
    method PersistEvents(active: seq<Event>, failsAt: Option<nat>) returns (written: Option<seq<EventId>>)
      modifies this
      ensures written.None? ==> Contents() == old(Contents()) && failsAt.Some?
      ensures written.Some? ==> Contents() == PersistAll(old(Contents()), active)
      ensures written.Some? ==>
                forall ev :: ev in written.value <==> ev in events && Newer(old(events), ev, events[ev].version)
    {
      var txEvents: map<EventId, EventRow> := events;
      var txMember: map<EntityId, EventId> := member;
      var done: seq<EventId> := [];
      var statement: nat := 0;
      for k := 0 to |active|
        invariant Tables(entities, txEvents, txMember) == PersistAll(old(Contents()), active[..k])
        invariant Contents() == old(Contents())
        invariant forall ev :: ev in done <==> ev in txEvents && Newer(old(events), ev, txEvents[ev].version)
      {
        var a := active[k];
        if failsAt == Some(statement) { return None; }
        PersistAllAdvances(Contents(), active[..k]);
        var returnsRow := Newer(txEvents, a.eventId, a.version);
        txEvents := Upsert(txEvents, a);
        var inserted := InsertEach(txMember, a.eventId, a.ids, statement + 1, failsAt);
        if inserted.None? { return None; }
        txMember := inserted.value;
        statement := statement + 1 + |a.ids|;
        if returnsRow {
          done := done + [a.eventId];
        }
        assert active[..k + 1][..k] == active[..k];
      }
      assert active[..|active|] == active;
      if failsAt == Some(statement) { return None; }
      events, member := txEvents, txMember;
      written := Some(done);
    }

    method Mark(ev: EventId, version: int)
      modifies this
      ensures Contents() == old(Contents()).(events := MarkPublished(old(events), ev, version))
      ensures ev in events ==> MarkedAt(events, ev, version)
      ensures Advances(old(events), events)
    {
      if ev in events && (events[ev].published.None? || events[ev].published.value < version) {
        events := events[ev := events[ev].(published := Some(version))];
      }
    }
  }
}
