/**
 `flush`, `_merge` and `_persist_and_publish` as the methods they are, run without interference and with
 calls that may fail (app/aggregation/aggregation_service.py). Pipeline puts their steps in every order,
 and FlushCache proves what the cache means when merges, other announcers and crashes come between them.
 */
module AggregationService {
  import opened Common
  import opened SlidingWindow
  import opened Tables
  import P = Pipeline
  import opened FlushCache
  import opened AggregationStore

  /** Which call fails, if any: a statement of the transaction, the query, or the k-th announcement or marker update. */
  datatype Fault = NoFault | InTransaction(statement: nat) | InQuery | AtPublish(k: nat) | AtMark(k: nat)

  /** What becomes of the store's write: an error may hide that it took effect. */
  datatype StoreFault = Written | NotWritten | ReplyLost

  class Service {
    const cfg: Config
    const repo: EventRepository
    const store: EventAggregationStore
    var stream: seq<EventId>                    // stream:event_aggregated
    var lastFlushed: map<EventId, int>

    constructor (cfg: Config, repo: EventRepository, store: EventAggregationStore)
      ensures this.cfg == cfg && this.repo == repo && this.store == store && stream == [] && lastFlushed == map[]
    {
      this.cfg, this.repo, this.store := cfg, repo, store;
      stream, lastFlushed := [], map[];
    }

    /** fetch_unpublished_events. */
    method FetchUnpublished(ids: set<EventId>) returns (todo: seq<Pending>)
      ensures Unpublished(repo.events, ids, todo)
    {
      todo := [];
      var rest := ids;
      while rest != {}
        invariant rest <= ids
        invariant Unpublished(repo.events, ids - rest, todo)
        decreases |rest|
      {
        var ev :| ev in rest;
        rest := rest - {ev};
        if ev in repo.events && repo.events[ev].Behind() {
          todo := todo + [Pending(ev, repo.events[ev].version)];
        }
      }
      assert ids - rest == ids;
    }

    /** The announcements of `todo`, in order: each owed version is sent and then marked. */
    method AnnounceAll(todo: seq<Pending>, fault: Fault) returns (ok: bool)
      requires forall k :: 0 <= k < |todo| ==> todo[k].event in repo.events
      modifies this`stream, repo
      ensures Advances(old(repo.events), repo.events) && repo.member == old(repo.member)
      ensures ok ==> stream == old(stream) + Announced(todo, |todo|)
      ensures ok ==> forall k :: 0 <= k < |todo| ==> MarkedAt(repo.events, todo[k].event, todo[k].version)
      ensures !ok ==> (fault.AtPublish? || fault.AtMark?) && fault.k < |todo|
      ensures !ok ==> stream == old(stream) + Announced(todo, if fault.AtMark? then fault.k + 1 else fault.k)
    {
      hide Advances, MarkedAt, MarkPublished;
      AdvancesReflexive(repo.events);
      for k := 0 to |todo|
        invariant Advances(old(repo.events), repo.events) && repo.member == old(repo.member)
        invariant stream == old(stream) + Announced(todo, k)
        invariant forall i :: 0 <= i < k ==> MarkedAt(repo.events, todo[i].event, todo[i].version)
      {
        var d := todo[k];
        if fault == AtPublish(k) { return false; }
        stream := stream + [d.event];
        if fault == AtMark(k) { return false; }
        ghost var before := repo.events;
        AdvanceHasRow(old(repo.events), before, d.event);
        repo.Mark(d.event, d.version);
        AdvanceKeepsStored(before, repo.events);
        AdvancesTransitive(old(repo.events), before, repo.events);
        AdvanceHasRow(before, repo.events, d.event);
      }
      ok := true;
    }

    /** The messages of the first `n` of `todo`. */
    static function Announced(todo: seq<Pending>, n: nat): seq<EventId>
      requires n <= |todo|
    {
      seq(n, k requires 0 <= k < n => todo[k].event)
    }

    /**
     Persists the Events, then announces and marks every one of them whose stored version has not been
     announced. On success each is stored and marked at its version or newer, and exactly the
     versions that were owed have been announced, once each. On failure markers and rows only moved
     forward, so the next run owes what this one left.
     */
    method PersistAndPublish(active: seq<Event>, fault: Fault) returns (announced: Option<seq<Pending>>)
      modifies this`stream, repo
      ensures Advances(old(repo.events), repo.events)
      ensures announced.Some? ==>
                && Unpublished(PersistAll(old(repo.Contents()), active).events, P.EventsOf(P.VersionsOf(active)),
                    announced.value)
                && stream == old(stream) + Announced(announced.value, |announced.value|)
                && (forall a :: a in active ==> FlushedAt(repo.events, a.eventId, a.version))
                && repo.member == PersistAll(old(repo.Contents()), active).member
      ensures announced.None? ==> fault != NoFault
    {
      hide Advances, PersistAll, Unpublished, StoredAt, MarkedAt, FlushedAt, P.EventsOf;
      ghost var before := repo.Contents();
      AdvancesReflexive(before.events);
      var written := repo.PersistEvents(active, if fault.InTransaction? then Some(fault.statement) else None);
      if written.None? { return None; }
      PersistAllAdvances(before, active);
      ghost var persisted := PersistAll(before, active);
      var ids := set k | 0 <= k < |active| :: active[k].eventId;
      assert ids == P.EventsOf(P.VersionsOf(active)) by { IdsAreEvents(active); }
      if fault.InQuery? { return None; }
      var todo := FetchUnpublished(ids);
      UnpublishedHaveRows(persisted.events, ids, todo);
      var ok := AnnounceAll(todo, fault);
      AdvancesTransitive(before.events, persisted.events, repo.events);
      if !ok { return None; }
      AdvanceKeepsStored(persisted.events, repo.events);
      forall a | a in active ensures FlushedAt(repo.events, a.eventId, a.version) {
        AnnouncedMeansFlushed(active, a, persisted.events, repo.events, ids, todo);
      }
      announced := Some(todo);
    }

    static lemma IdsAreEvents(active: seq<Event>)
      ensures (set k | 0 <= k < |active| :: active[k].eventId) == P.EventsOf(P.VersionsOf(active))
    {
    }

    static lemma UnpublishedHaveRows(events: map<EventId, EventRow>, ids: set<EventId>, todo: seq<Pending>)
      requires Unpublished(events, ids, todo)
      ensures forall k :: 0 <= k < |todo| ==> todo[k].event in events
    {
    }

    static lemma AdvanceHasRow(a: map<EventId, EventRow>, b: map<EventId, EventRow>, ev: EventId)
      requires Advances(a, b) && ev in a
      ensures ev in b
    {
    }

    static lemma AnnouncedMeansFlushed(active: seq<Event>, a: Event, persisted: map<EventId, EventRow>,
                                       events: map<EventId, EventRow>, ids: set<EventId>, todo: seq<Pending>)
      requires a in active && ids == set k | 0 <= k < |active| :: active[k].eventId
      requires forall k :: 0 <= k < |active| ==> StoredAt(persisted, active[k].eventId, active[k].version)
      requires Unpublished(persisted, ids, todo) && Advances(persisted, events)
      requires forall i :: 0 <= i < |todo| ==> MarkedAt(events, todo[i].event, todo[i].version)
      ensures FlushedAt(events, a.eventId, a.version)
    {
      var k :| 0 <= k < |active| && active[k] == a;
      assert StoredAt(persisted, a.eventId, a.version) && a.eventId in ids;
      if persisted[a.eventId].Behind() {
        assert Pending(a.eventId, persisted[a.eventId].version) in todo;
      }
    }

    /**
     `flush`: persists and announces every active Event not flushed at its version yet. Success leaves every
     active Event stored and announced, sent or skipped; failure leaves the cache as it was. Either way
     the cache stays sound.
     */
    method Flush(expired: set<string>, fault: Fault) returns (ok: bool, seen: seq<Event>)
      requires CacheSound(repo.events, lastFlushed) && store.Valid()
      modifies this, repo, store
      ensures CacheSound(repo.events, lastFlushed) && Advances(old(repo.events), repo.events)
      ensures store.Valid() && store.kept == old(store.kept) - expired
      ensures ok ==> lastFlushed == P.FlushedVersions(seen)
      ensures ok ==> forall a :: a in seen ==> FlushedAt(repo.events, a.eventId, a.version)
      ensures ok ==> forall g :: store.Lookup(g).Some? ==> store.Lookup(g).value in seen
      ensures !ok ==> lastFlushed == old(lastFlushed)
      ensures !ok ==> fault != NoFault || exists g :: store.Lookup(g).Some? && !Plain(g)
      ensures ok && P.Changed(old(lastFlushed), seen) == [] ==> stream == old(stream) && repo.events == old(repo.events)
    {
      hide Advances, FlushedAt, PersistAll, P.FlushedVersions, KeyOf, Plain;
      AdvancesReflexive(repo.events);
      var scanned := store.ScanAll(expired);
      if scanned.None? { return false, []; }
      seen := scanned.value;
      var changed := P.Changed(lastFlushed, seen);
      if changed != [] {
        var outcome := PersistAndPublish(changed, fault);
        SoundAfter(old(repo.events), repo.events, lastFlushed);
        if outcome.None? { return false, seen; }
      }
      forall a | a in seen ensures FlushedAt(repo.events, a.eventId, a.version) {
        if a !in changed { assert P.Lookup(lastFlushed, a.eventId) == Some(a.version); }
      }
      lastFlushed := P.FlushedVersions(seen);
      ok := true;
    }

    static lemma SoundAfter(events: map<EventId, EventRow>, events': map<EventId, EventRow>, cache: map<EventId, int>)
      requires CacheSound(events, cache) && Advances(events, events')
      ensures CacheSound(events', cache)
    {
    }

    /**
     `_merge` with its report. ACKed, the EntityEvent is a duplicate, late, or in its group's active Event. The store
     changes only for a merge, and then the Event that lost its place was stored, mapped and announced
     first; a failure after that (the write's reply lost, or the ACK) leaves the merge in the store,
     where the redelivered EntityEvent is found as a duplicate. Without a failure everything is ACKed.
     */
    method Merge(ee: EntityEvent, newId: EventId, now: int, fault: Fault, storeFault: StoreFault, ackFails: bool)
      returns (acked: bool)
      requires ee.IsPersistent() && store.Valid()
      modifies this`stream, repo, store
      ensures store.Valid() && Advances(old(repo.events), repo.events)
      ensures var active := old(store.Lookup(ee.group));
              var verdict := P.Judge(cfg, active, ee, ee.id.value in old(repo.member), newId, now);
              var merged := verdict.Merged? && (acked || store.kept != old(store.kept));
              && (acked ==> !ackFails && !verdict.Rejected?)
              && (!verdict.Merged? ==>
                    store.kept == old(store.kept) && repo.Contents() == old(repo.Contents()) && stream == old(stream))
              && (merged ==>
                    && store.Lookup(ee.group) == Some(verdict.updated)
                    && store.TtlOf(ee.group) == Some(TtlFor(cfg, verdict.updated))
                    && (forall g :: Plain(g) && g != ee.group ==> store.Lookup(g) == old(store.Lookup(g)))
                    && ee.id.value in verdict.updated.ids
                    && (P.Replaces(active, verdict.updated) ==>
                          && FlushedAt(repo.events, active.value.eventId, active.value.version)
                          && forall e :: e in active.value.ids ==> e in repo.member))
              && (merged && !acked ==> storeFault.ReplyLost? || ackFails)
      ensures var active, at := old(store.Lookup(ee.group)), ee.DatedAt().value;
              var listed := ee.id.value in old(repo.member) || (active.Some? && ee.id.value in active.value.ids);
              var tooOld := active.Some? && active.value.lastSeen - at > cfg.windowHours * HOUR;
              && (acked && !listed && !tooOld ==>
                    store.Lookup(ee.group).Some? && ee.id.value in store.Lookup(ee.group).value.ids)
              && (listed || tooOld ==> store.kept == old(store.kept) && acked == !ackFails)
      ensures var active := old(store.Lookup(ee.group));
              var sound := active.None? || active.value.ids != [];
              sound && fault.NoFault? && storeFault.Written? && !ackFails ==> acked
    {
      hide Advances, FlushedAt, PersistAll, TtlFor, Fits, KeyOf, Plain;
      AdvancesReflexive(repo.events);
      var active := store.Lookup(ee.group);
      if (active.Some? && ee.id.value in active.value.ids) || ee.id.value in repo.member {
        return !ackFails;
      }
      if active.Some? && IsLate(cfg, active.value, ee) {
        return !ackFails;
      }
      var result := MergeOrCreate(cfg, active, ee, newId, now);
      if result.Err? {
        return false;
      }
      var updated := result.value;
      if P.Replaces(active, updated) {
        ghost var before := repo.Contents();
        var outcome := PersistAndPublish([active.value], fault);
        if outcome.None? { return false; }
        assert active.value in [active.value];
        PersistedMembers(before, active.value);
      }
      if storeFault.NotWritten? {
        return false;
      }
      store.UpsertActiveEvent(updated, TtlFor(cfg, updated));
      acked := storeFault.Written? && !ackFails;
    }

    static lemma PersistedMembers(t: Tables, a: Event)
      ensures forall e :: e in a.ids ==> e in PersistAll(t, [a]).member
    {
      assert PersistAll(t, [a]) == PersistOne(PersistAll(t, []), a) by { assert [a][..0] == []; }
    }
  }
}
