/**
 A score is computed over exactly the EntityEvents of the version it is stamped with, although the
 scorer reads the Event and its constituents in two queries while merges keep landing: the
 version check refuses every score whose two reads straddled a new version.
 */
module ScoreExactness {
  import opened Common
  import opened SlidingWindow
  import opened Tables
  import opened Pipeline
  import opened Ownership
  import opened Coverage
  import OwnershipSteps

  /** `members` are exactly the EntityEvents that entered `ev` by version `v`. */
  ghost predicate Exactly(h: History, ev: EventId, v: int, members: set<EntityId>) {
    forall e :: e in members <==> Owns(h, ev, v, e)
  }

  ghost predicate ScorersExact(h: History, events: Rows, o: Scoring) {
    forall k :: k in o.scorers && MayWrite(events, o.scorers[k]) ==>
      Exactly(h, o.scorers[k].event, o.scorers[k].phase.version, o.scorers[k].phase.members)
  }

  /** A scorer that passed the version check, or would if it made it now. */
  predicate MayWrite(events: Rows, w: Scorer) {
    w.phase.Checked? || (w.phase.HasMembers? && StoredExactly(events, w.event, w.phase.version))
  }

  predicate StoredExactly(events: Rows, ev: EventId, v: int) {
    ev in events && events[ev].version == v
  }

  ghost predicate ScoresExact(h: History, o: Scoring) {
    forall ev :: ev in o.scores ==> Exactly(h, ev, o.scores[ev].version, o.scores[ev].members)
  }

  ghost predicate Inv(s: State) {
    ScorersExact(s.h, s.t.events, s.o) && ScoresExact(s.h, s.o)
  }

  /** What the membership join returns is exactly the stored version's constituents. */
  lemma JoinIsExact(h: History, t: Tables, ev: EventId)
    requires MembershipExact(h, t) && ev in t.events
    ensures Exactly(h, ev, t.events[ev].version, MembersOf(t.member, ev))
  {
    forall e ensures e in MembersOf(t.member, ev) <==> Owns(h, ev, t.events[ev].version, e) {
      assert e in t.member ==> e in h.owner && h.owner[e].event == t.member[e];
    }
  }

  lemma ScoreKeeps(s: State, k: nat, a: ScoreAction)
    requires Inv(s) && MembershipExact(s.h, s.t) && CanScore(s, k, a)
    ensures Inv(s.(o := Scored(s.t, s.o, k, a)))
  {
    hide Exactly, MembershipExact;
    if a.ReadMembers? {
      if s.o.scorers[k].event in s.t.events { JoinIsExact(s.h, s.t, s.o.scorers[k].event); }
    }
  }

  lemma RowsMove(s: State, t': Tables)
    requires Inv(s) && Coverage.Inv(s.t.events, s.o)
    requires Advances(s.t.events, t'.events)
    ensures ScorersExact(s.h, t'.events, s.o)
  {
    hide Exactly, Covered, AnnouncersOk, AllCovered;
    forall k | k in s.o.scorers && MayWrite(t'.events, s.o.scorers[k])
      ensures Exactly(s.h, s.o.scorers[k].event, s.o.scorers[k].phase.version, s.o.scorers[k].phase.members)
    {
      assert ScorerOk(s.t.events[s.o.scorers[k].event], s.o, s.o.scorers[k]);
      assert s.o.scorers[k].phase.HasMembers? ==>
        StoredExactly(s.t.events, s.o.scorers[k].event, s.o.scorers[k].phase.version);
    }
  }

  lemma MergeKeepsExact(h: History, h': History, ev: EventId, v: int, e: EntityId, b: EventId, w: int,
                        members: set<EntityId>)
    requires HistoryMerges(h, h', ev, v, e) && b in h.latest && w <= h.latest[b]
    requires Exactly(h, b, w, members)
    ensures Exactly(h', b, w, members)
  {
    OwnsUnchanged(h, h', ev, v, e, b, w);
  }

  lemma MergeKeeps(s: State, h': History, ev: EventId, v: int, e: EntityId)
    requires Inv(s) && Coverage.Inv(s.t.events, s.o) && RowsOk(s.h, s.t)
    requires HistoryMerges(s.h, h', ev, v, e)
    ensures ScorersExact(h', s.t.events, s.o) && ScoresExact(h', s.o)
  {
    hide Exactly, Covered, AnnouncersOk, AllCovered, RowSpans, HistoryMerges;
    forall b | b in s.o.scores ensures Exactly(h', b, s.o.scores[b].version, s.o.scores[b].members) {
      assert RowOk(s.h, s.t.entities, b, s.t.events[b]);
      MergeKeepsExact(s.h, h', ev, v, e, b, s.o.scores[b].version, s.o.scores[b].members);
    }
    forall k | k in s.o.scorers && MayWrite(s.t.events, s.o.scorers[k])
      ensures Exactly(h', s.o.scorers[k].event, s.o.scorers[k].phase.version, s.o.scorers[k].phase.members)
    {
      var w := s.o.scorers[k];
      assert RowOk(s.h, s.t.entities, w.event, s.t.events[w.event]);
      MergeKeepsExact(s.h, h', ev, v, e, w.event, w.phase.version, w.phase.members);
    }
  }

  lemma PersistKeeps(s: State, active: seq<Event>)
    requires Inv(s) && Coverage.Inv(s.t.events, s.o)
    ensures ScorersExact(s.h, PersistAll(s.t, active).events, s.o)
  {
    hide Exactly, Coverage.Inv;
    PersistAllAdvances(s.t, active);
    RowsMove(s, PersistAll(s.t, active));
  }

  lemma UpsertKeeps(cfg: Config, s: State, g: GroupKey, reported: bool)
    requires Ownership.Inv(cfg, s) && Coverage.Inv(s.t.events, s.o) && Inv(s)
    requires g in s.running && s.running[g].Upserting?
    ensures Inv(DoUpsert(s, g, reported))
  {
    hide Exactly, Coverage.Inv, RowsOk, HistoryMerges, MembershipExact, NothingLost, StoreOk, SeenOk, AllRunningOk;
    OwnershipSteps.UpsertMerges(cfg, s, g);
    var r := s.running[g];
    MergeKeeps(s, DoUpsert(s, g, true).h, r.updated.eventId, r.updated.version, r.job.entity);
  }

  lemma DrawKeeps(s: State, h': History)
    requires Inv(s) && h'.owner == s.h.owner
    ensures ScorersExact(h', s.t.events, s.o) && ScoresExact(h', s.o)
  {
    hide MayWrite;
    forall ev, v, members | Exactly(s.h, ev, v, members) ensures Exactly(h', ev, v, members) {
      forall e ensures Owns(h', ev, v, e) <==> Owns(s.h, ev, v, e) {}
    }
  }

  lemma GroupKeeps(cfg: Config, s: State, g: GroupKey, a: GroupAction)
    requires Ownership.Inv(cfg, s) && Coverage.Inv(s.t.events, s.o) && Inv(s) && CanGroup(s, g, a)
    ensures Inv(GroupStep(cfg, s, g, a))
  {
    hide Ownership.Inv, Coverage.Inv, Exactly, PersistAll, DoUpsert, VerdictOf;
    match a
    case Decide(newId, now) => DrawKeeps(s, GroupStep(cfg, s, g, a).h);
    case PersistReplaced => PersistKeeps(s, [s.running[g].active.value]);
    case UpsertActive(reported) => UpsertKeeps(cfg, s, g, reported);
    case _ =>
  }

  lemma FlushKeeps(s: State, f: FlushAction)
    requires Coverage.Inv(s.t.events, s.o) && Inv(s) && CanFlush(s, f)
    ensures Inv(FlushEffect(s, f))
  {
    hide Coverage.Inv, Exactly, PersistAll, Changed, FlushedVersions;
    if f.FlushPersists? { PersistKeeps(s, Changed(s.lastFlushed, s.flush.seen)); }
  }

  lemma AnnounceKeeps(s: State, p: Party, a: AnnounceAction)
    requires Coverage.Inv(s.t.events, s.o) && Inv(s) && CanAnnounce(s, p, a)
    ensures Inv(AnnounceStep(s, p, a))
  {
    hide Coverage.Inv, Exactly, MarkPublished, Unpublished, EventsOf;
    if a.Mark? {
      var d := s.o.announcers[p].todo[0];
      OwnershipSteps.MarkAdvances(s.t.events, d.event, d.version);
      RowsMove(s, s.t.(events := MarkPublished(s.t.events, d.event, d.version)));
    }
  }

  lemma StepKeeps(cfg: Config, s: State, a: Action)
    requires Ownership.Inv(cfg, s) && Coverage.Inv(s.t.events, s.o) && Inv(s) && Enabled(s, a)
    ensures Inv(Apply(cfg, s, a))
  {
    hide Coverage.Inv, Exactly, MayWrite, GroupStep, FlushEffect, AnnounceStep, Scored;
    hide RowsOk, MembershipExact, NothingLost, StoreOk, SeenOk, AllRunningOk, QueuesOk, WellStored, HistoryOk;
    match a
    case Group(g, ga) => GroupKeeps(cfg, s, g, ga);
    case FlushStep(f) => FlushKeeps(s, f);
    case Announce(p, an) => AnnounceKeeps(s, p, an);
    case ScoreStep(k, sa) => ScoreKeeps(s, k, sa);
    case _ =>
  }
}
