/**
 `score_event` as the method it is, with other coroutines' writes between its awaits, over the
 event_scores table and its guarded upsert (app/scoring/scoring_service.py,
 app/persistent/event_score_repository.py, app/scoring/scoring_consumer.py).
 */
module ScoringService {
  import opened Common
  import opened SlidingWindow
  import opened Tables
  import P = Pipeline

  /** An event_scores row; `scoreId` is drawn when the Event is first scored. */
  datatype Row = Row(scoreId: nat, score: P.Score)

  /** The INSERT, or the ON CONFLICT update, which keeps the row's id and asks nothing about its version. */
  function Put(scores: map<EventId, Row>, ev: EventId, id: nat, score: P.Score): (r: map<EventId, Row>)
    ensures ev in r && r[ev].score == score && r - {ev} == scores - {ev}
    ensures r[ev].scoreId == if ev in scores then scores[ev].scoreId else id
  {
    scores[ev := Row(if ev in scores then scores[ev].scoreId else id, score)]
  }

  /** A write of another scorer that lands between the version check and the insert or update. */
  datatype Rival = Rival(id: nat, score: P.Score)

  class EventScoreRepository {
    const events: EventRepository
    var scores: map<EventId, Row>

    constructor (events: EventRepository)
      ensures this.events == events && scores == map[]
    {
      this.events, scores := events, map[];
    }

    /**
     The upsert in its two parts: the SELECT checks that the expected version is stored, and the score is
     written if it was, over whatever `rival` wrote since. Returns the row as written.
     */
    method PersistScoreIfNotStale(ev: EventId, newId: nat, score: P.Score, expected: int, rival: Option<Rival>)
      returns (stored: Option<Row>)
      modifies this
      ensures stored.Some? <==> ev in events.events && events.events[ev].version == expected
      ensures stored.None? && rival.None? ==> scores == old(scores)
      ensures stored.Some? ==> ev in scores && scores[ev] == stored.value && stored.value.score == score
      ensures stored.Some? ==>
                (stored.value.scoreId ==
                   if ev in old(scores) then old(scores)[ev].scoreId
                   else if rival.Some? then rival.value.id else newId)
      ensures scores - {ev} == old(scores) - {ev}
    {
      var current := ev in events.events && events.events[ev].version == expected;
      if rival.Some? {
        scores := Put(scores, ev, rival.value.id, rival.value.score);
      }
      if !current {
        return None;
      }
      scores := Put(scores, ev, newId, score);
      stored := Some(scores[ev]);
    }
  }

  /** What `score_event` came to. */
  datatype Outcome = Missing | Stale(read: int) | Scored(score: P.Score)

  class Service {
    const repo: EventRepository
    const scoreRepo: EventScoreRepository
    var stream: seq<EventId>                      // stream:event_scored

    constructor (scoreRepo: EventScoreRepository)
      ensures this.scoreRepo == scoreRepo && repo == scoreRepo.events && stream == []
    {
      this.scoreRepo, repo, stream := scoreRepo, scoreRepo.events, [];
    }

    /**
     `score_event`. `first` and `second` are the Events that aggregation persists while the scorer awaits its
     second read and its write; `rival` is another scorer's write in the middle of its own. An Event flushed
     at a newer version by then gets no score; otherwise the score written is of the version stored at the
     check, it is what the row holds whatever the rival wrote, and it is announced.
     */
    method ScoreEvent(ev: EventId, newId: nat, first: seq<Event>, second: seq<Event>, rival: Option<Rival>)
      returns (outcome: Outcome)
      requires repo == scoreRepo.events
      modifies this, repo, scoreRepo
      ensures outcome.Missing? <==> ev !in old(repo.events)
      ensures repo.Contents() ==
              if outcome.Missing? then old(repo.Contents())
              else PersistAll(PersistAll(old(repo.Contents()), first), second)
      ensures Advances(old(repo.events), repo.events)
      ensures outcome.Scored? <==> ev in old(repo.events) && repo.events[ev].version == old(repo.events)[ev].version
      ensures outcome.Scored? ==>
                && outcome.score == P.Score(repo.events[ev].version,
                                            P.MembersOf(PersistAll(old(repo.Contents()), first).member, ev))
                && ev in scoreRepo.scores && scoreRepo.scores[ev].score == outcome.score
                && stream == old(stream) + [ev]
      ensures scoreRepo.scores - {ev} == old(scoreRepo.scores) - {ev}
      ensures !outcome.Scored? ==> stream == old(stream)
      ensures !outcome.Scored? && (rival.None? || outcome.Missing?) ==> scoreRepo.scores == old(scoreRepo.scores)
      ensures outcome.Stale? ==> outcome.read == old(repo.events)[ev].version < repo.events[ev].version
    {
      hide PersistAll;
      AdvancesReflexive(repo.events);
      ghost var before := repo.Contents();
      if ev !in repo.events {
        return Missing;
      }
      var expected := repo.events[ev].version;
      var _ := repo.PersistEvents(first, None);
      PersistAllAdvances(before, first);
      ghost var between := repo.Contents();
      var members := P.MembersOf(repo.member, ev);
      var _ := repo.PersistEvents(second, None);
      PersistAllAdvances(between, second);
      AdvancesTransitive(before.events, between.events, repo.events);
      var score := P.Score(expected, members);
      var stored := scoreRepo.PersistScoreIfNotStale(ev, newId, score, expected, rival);
      if stored.None? {
        return Stale(expected);
      }
      stream := stream + [ev];
      outcome := Scored(score);
    }
  }

  /** A message of stream:event_aggregated; None if it carries no valid event id. */
  datatype Message = Message(id: MsgId, event: Option<EventId>)

  class Consumer {
    const service: Service
    var unacked: set<MsgId>

    constructor (service: Service)
      ensures this.service == service && unacked == {}
    {
      this.service, unacked := service, {};
    }

    /**
     `_route` and `_process_one`: a message is ACKed only once its Event was scored at the version now
     stored, has no row, or was given a newer version since it was read (whose own announcement is owed).
     */
    method Route(m: Message, newId: nat, first: seq<Event>, second: seq<Event>, rival: Option<Rival>, fails: bool)
      returns (outcome: Option<Outcome>)
      requires service.repo == service.scoreRepo.events
      modifies this, service, service.repo, service.scoreRepo
      ensures unacked == if outcome.Some? then old(unacked) - {m.id} else old(unacked)
      ensures outcome.Some? <==> m.event.Some? && !fails
      ensures outcome == Some(Missing) ==> m.event.value !in old(service.repo.events)
      ensures outcome.Some? && outcome.value.Stale? ==>
                m.event.value in service.repo.events && outcome.value.read < service.repo.events[m.event.value].version
      ensures outcome.Some? && outcome.value.Scored? ==>
                && m.event.value in service.scoreRepo.scores && m.event.value in service.repo.events
                && service.scoreRepo.scores[m.event.value].score.version == service.repo.events[m.event.value].version
      ensures outcome.None? ==> service.scoreRepo.scores == old(service.scoreRepo.scores)
    {
      if m.event.None? || fails {
        return None;
      }
      var done := service.ScoreEvent(m.event.value, newId, first, second, rival);
      unacked := unacked - {m.id};
      outcome := Some(done);
    }
  }
}
