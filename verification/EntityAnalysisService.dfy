/**
 The Entity Analysis layer's methods, run without interference and with calls that may fail:
 `persist_entities`, `find_entity_events` and the consumer's routing (app/persistent/entity_event_repository.py,
 app/entity_analysis). EntityAnalysis puts their steps in every order.
 */
module EntityAnalysisService {
  import opened Common
  import opened EntityAnalysis

  class EntityEventRepository {
    var rows: map<EntityId, Row>

    constructor ()
      ensures rows == map[]
    {
      rows := map[];
    }

    /** `persist_entities`: one transaction; an entity whose article and stock have a row is left out. */
    method PersistEntities(url: Url, batch: seq<Draft>, failsAt: Option<nat>) returns (persisted: Option<seq<EntityId>>)
      requires FreshBatch(rows, batch)
      modifies this
      ensures persisted.None? <==> failsAt.Some? && failsAt.value <= |batch|
      ensures persisted.None? ==> rows == old(rows)
      ensures persisted.Some? ==>
                && rows == Inserted(old(rows), url, Stored(old(rows), url, batch))
                && persisted.value == IdsOf(Stored(old(rows), url, batch))
    {
      hide Taken, Inserted, Stored;
      var tx: map<EntityId, Row> := rows;
      var done: seq<EntityId> := [];
      StoredNothing(rows, url);
      assert IdsOf(Stored(rows, url, [])) == [] by { NothingStored(rows, url); }
      for k := 0 to |batch|
        invariant rows == old(rows) && (failsAt.Some? ==> failsAt.value >= k)
        invariant tx == Inserted(rows, url, Stored(rows, url, batch[..k]))
        invariant done == IdsOf(Stored(rows, url, batch[..k]))
      {
        if failsAt == Some(k) { return None; }
        var d := batch[k];
        var upTo := batch[..k + 1];
        assert upTo[..k] == batch[..k] && upTo[k] == d;
        assert FreshBatch(rows, upTo);
        LastDraft(rows, url, upTo);
        LastId(rows, url, upTo);
        if !Taken(tx, url, d.stock) {
          tx := tx[d.id := Row(url, d.stock, d.entity)];
          done := done + [d.id];
        }
      }
      assert batch[..|batch|] == batch;
      if failsAt == Some(|batch|) { return None; }
      rows := tx;
      persisted := Some(done);
    }

    static lemma NothingStored(rows: map<EntityId, Row>, url: Url)
      ensures Stored(rows, url, []) == []
    {
    }

    static lemma LastId(rows: map<EntityId, Row>, url: Url, batch: seq<Draft>)
      requires batch != []
      ensures var d := batch[|batch| - 1]; var done := Stored(rows, url, batch[..|batch| - 1]);
              IdsOf(Stored(rows, url, batch)) ==
                if Taken(Inserted(rows, url, done), url, d.stock) then IdsOf(done) else IdsOf(done) + [d.id]
    {
    }

    /** `fetch_entity_event_ids_by_source_url`. */
    method FetchIdsByUrl(url: Url) returns (ids: seq<EntityId>)
      ensures RowsOfUrl(rows, url, ids)
    {
      ids := [];
      var rest := rows.Keys;
      while rest != {}
        invariant rest <= rows.Keys
        invariant forall e :: e in ids <==> e in rows && e !in rest && rows[e].url == url
        decreases |rest|
      {
        var e :| e in rest;
        rest := rest - {e};
        if rows[e].url == url { ids := ids + [e]; }
      }
    }
  }

  class Service {
    const repo: EntityEventRepository
    var stream: seq<EntityId>                  // stream:entity_event_completed

    constructor (repo: EntityEventRepository)
      ensures this.repo == repo && stream == []
    {
      this.repo, stream := repo, [];
    }

    /** `_publish`; `failsAt` is the announcement that raises, if one does. */
    method Publish(ids: seq<EntityId>, failsAt: Option<nat>) returns (ok: bool)
      modifies this
      ensures ok <==> failsAt.None? || failsAt.value >= |ids|
      ensures stream == old(stream) + if ok then ids else ids[..failsAt.value]
    {
      for k := 0 to |ids|
        invariant stream == old(stream) + ids[..k] && (failsAt.Some? ==> failsAt.value >= k)
      {
        if failsAt == Some(k) { return false; }
        stream := stream + [ids[k]];
        assert ids[..k + 1] == ids[..k] + [ids[k]];
      }
      assert ids[..|ids|] == ids;
      ok := true;
    }

    /**
     `find_entity_events`: `article` is None if SADI has none with the id, `answer` if the analysis failed.
     When it returns normally, this very call announced every EntityEvent stored for the article,
     and nothing else. When it raises, either nothing was stored or all of the answer was, and what it
     announced is stored.
     */
    method FindEntityEvents(article: Option<Url>, answer: Option<seq<Draft>>, failsAt: Option<nat>,
                            publishFailsAt: Option<nat>) returns (ok: bool)
      requires answer.Some? ==> FreshBatch(repo.rows, answer.value)
      modifies this, repo
      ensures old(stream) <= stream
      ensures article.None? ==> ok && repo.rows == old(repo.rows) && stream == old(stream)
      ensures article.Some? ==>
                forall e :: e in stream[|old(stream)|..] ==> e in repo.rows && repo.rows[e].url == article.value
      ensures ok && article.Some? ==>
                forall e :: e in repo.rows && repo.rows[e].url == article.value ==> e in stream[|old(stream)|..]
      ensures article.Some? && (exists e :: e in old(repo.rows) && old(repo.rows)[e].url == article.value) ==>
                repo.rows == old(repo.rows) && (publishFailsAt.None? ==> ok)
      ensures repo.rows != old(repo.rows) ==>
                && article.Some? && answer.Some?
                && repo.rows == Inserted(old(repo.rows), article.value,
                    Stored(old(repo.rows), article.value, answer.value))
      ensures ok && article.Some? && !(exists e :: e in old(repo.rows) && old(repo.rows)[e].url == article.value) ==>
                && answer.Some?
                && repo.rows == Inserted(old(repo.rows), article.value,
                    Stored(old(repo.rows), article.value, answer.value))
                && forall k :: 0 <= k < |answer.value| ==> Taken(repo.rows, article.value, answer.value[k].stock)
    {
      hide Taken, Inserted, Stored;
      if article.None? { return true; }
      var url := article.value;
      ghost var before := repo.rows;
      var existing := repo.FetchIdsByUrl(url);
      if existing != [] {
        assert existing[0] in existing;
        ok := Publish(existing, publishFailsAt);
        assert stream[|old(stream)|..] == if ok then existing else existing[..publishFailsAt.value];
        return;
      }
      NoneOfUrl(before, url, existing);
      if answer.None? { return false; }
      var persisted := repo.PersistEntities(url, answer.value, failsAt);
      if persisted.None? { return false; }
      ok := Publish(persisted.value, publishFailsAt);
      assert stream[|old(stream)|..] == if ok then persisted.value else persisted.value[..publishFailsAt.value];
      BatchIsStored(before, url, answer.value);
      StoredAreTheUrls(before, url, answer.value);
    }

    static lemma NoneOfUrl(rows: map<EntityId, Row>, url: Url, ids: seq<EntityId>)
      requires RowsOfUrl(rows, url, ids)
      ensures ids == [] ==> forall e :: e in rows ==> rows[e].url != url
    {
    }

    /** For an article without rows, the rows stored now are its rows. */
    static lemma StoredAreTheUrls(rows: map<EntityId, Row>, url: Url, batch: seq<Draft>)
      requires FreshBatch(rows, batch) && forall e :: e in rows ==> rows[e].url != url
      ensures var after := Inserted(rows, url, Stored(rows, url, batch));
              forall e :: e in IdsOf(Stored(rows, url, batch)) <==> e in after && after[e].url == url
    {
      var stored := Stored(rows, url, batch);
      StoredIsPart(rows, url, batch);
      InsertedRows(rows, url, stored);
      hide Stored, Inserted;
    }
  }

  /** What becomes of a delivered message. */
  datatype Fate = DeadLettered | Acked | LeftPending

  class CleanedNewsConsumer {
    const service: Service
    const maxRetry: nat
    var processing: set<CleanedId>             // _processing_cleaned_ids
    var pending: set<MsgId>
    var deadLetters: seq<MsgId>

    constructor (service: Service, maxRetry: nat)
      ensures this.service == service && this.maxRetry == maxRetry
      ensures processing == {} && pending == {} && deadLetters == []
    {
      this.service, this.maxRetry, processing, pending, deadLetters := service, maxRetry, {}, {}, [];
    }

    /**
     `_route`, `_process_one` and `_analyse`. `deliveries` is set on a reclaimed message. The article is released
     whatever happens, and its message is ACKed only after its analysis ended well.
     */
    method Route(m: MsgId, payload: Option<CleanedId>, deliveries: Option<nat>, listLoaded: bool,
                 article: Option<Url>, answer: Option<seq<Draft>>, failsAt: Option<nat>, publishFailsAt: Option<nat>,
                 ackFails: bool) returns (fate: Fate)
      requires answer.Some? ==> FreshBatch(service.repo.rows, answer.value)
      modifies this, service, service.repo
      ensures processing == old(processing)
      ensures fate.DeadLettered? <==> (deliveries.Some? && deliveries.value >= maxRetry) || payload.None?
      ensures deadLetters == if fate.DeadLettered? then old(deadLetters) + [m] else old(deadLetters)
      ensures pending == if fate.LeftPending? || (fate.DeadLettered? && ackFails) then old(pending)
                         else old(pending) - {m}
      ensures fate.Acked? ==> listLoaded && payload.value !in old(processing)
      ensures fate.Acked? && article.Some? ==>
                forall e :: e in service.repo.rows && service.repo.rows[e].url == article.value ==> e in service.stream
    {
      if (deliveries.Some? && deliveries.value >= maxRetry) || payload.None? {
        deadLetters := deadLetters + [m];
        if !ackFails { pending := pending - {m}; }
        return DeadLettered;
      }
      if !listLoaded || payload.value in processing {
        return LeftPending;
      }
      processing := processing + {payload.value};
      var ok := service.FindEntityEvents(article, answer, failsAt, publishFailsAt);
      if ok && !ackFails {
        pending := pending - {m};
        fate := Acked;
      } else {
        fate := LeftPending;
      }
      processing := processing - {payload.value};
    }
  }
}
