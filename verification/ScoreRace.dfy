/**
 Overlapping score upserts. The statement checks the Event's version, and then inserts the score or, where
 a row is there by then, updates it whatever version that row scores (app/persistent/event_score_repository.py).
 Between its two parts the Event may be flushed again and scored by another scorer. This module says
 exactly when that takes a score back or loses it.
 */
module ScoreRace {
  import opened Common
  import opened SlidingWindow
  import opened Tables
  import opened Pipeline
  import opened Coverage
  import opened PipelineTheorems

  // ----------------------------------------------------------------------- writes in version order

  /** No newer score is replaced. */
  predicate InOrder(s: State, a: Action) {
    a.ScoreStep? && a.sa.WriteScore? && a.k in s.o.scorers && s.o.scorers[a.k].phase.Checked? ==>
      !Outdated(s.o, s.o.scorers[a.k])
  }

  lemma StepInOrder(cfg: Config, s: State, a: Action)
    requires Enabled(s, a) && InOrder(s, a) && s.o.overwritten == {}
    ensures Apply(cfg, s, a).o.overwritten == {}
  {
    if a.ScoreStep? {
      hide MembersOf;
    } else {
      hide Apply, Enabled;
      OthersKeepScores(cfg, s, a);
    }
  }

  /** Scorers are numbered 0 .. n-1; a number is free again once its scorer and the statement it sent have ended. */
  predicate ScorerBelow(a: Action, n: nat) {
    a.ScoreStep? && a.sa.Deliver? ==> a.k < n
  }

  /** At most one scorer, and what it is about to write is not older than what is there. */
  ghost predicate OneScorer(o: Scoring) {
    && (forall k :: k in o.scorers ==> k == 0)
    && (forall k :: k in o.scorers && o.scorers[k].phase.Checked? ==> !Outdated(o, o.scorers[k]))
  }

  lemma StepKeepsOneScorer(cfg: Config, s: State, a: Action)
    requires Enabled(s, a) && ScorerBelow(a, 1) && OneScorer(s.o) && ScoresOk(s.t.events, s.o)
    ensures OneScorer(Apply(cfg, s, a).o) && InOrder(s, a)
  {
    if a.ScoreStep? {
      hide OneScorer, ScoresOk, Outdated;
      OnlyScorer(s, a.k, a.sa);
    } else {
      hide Apply, Enabled;
      OthersKeepScores(cfg, s, a);
    }
  }

  lemma OnlyScorer(s: State, k: nat, a: ScoreAction)
    requires CanScore(s, k, a) && ScorerBelow(ScoreStep(k, a), 1) && OneScorer(s.o) && ScoresOk(s.t.events, s.o)
    ensures OneScorer(Scored(s.t, s.o, k, a)) && InOrder(s, ScoreStep(k, a))
  {
    hide MembersOf;
    var o, o' := s.o, Scored(s.t, s.o, k, a);
    assert k == 0;
    if a.CheckVersion? {
      CheckedIsCurrent(s, k);
    } else {
      assert k in o'.scorers ==> !o'.scorers[k].phase.Checked?;
    }
  }

  /** What passes the check is not older than what is scored, since scores never run ahead of their Events. */
  lemma CheckedIsCurrent(s: State, k: nat)
    requires CanScore(s, k, CheckVersion) && ScoresOk(s.t.events, s.o)
    ensures var o' := Scored(s.t, s.o, k, CheckVersion);
            o'.scorers[k].phase.Checked? ==> !Outdated(o', o'.scorers[k])
  {
  }

  // ------------------------------------------------------------------------------ kinds of scorers

  /**
   At most n scorers; if `guarded`, their update has a condition that skips it where it would replace a newer score.
   */
  predicate Allowed(n: nat, guarded: bool, s: State, a: Action) {
    && ScorerBelow(a, n)
    && (a.ScoreStep? && a.sa.SkipWrite? ==> guarded)
    && (guarded ==> InOrder(s, a))
  }

  ghost predicate IsRunOf(cfg: Config, n: nat, guarded: bool, states: seq<State>, actions: seq<Action>) {
    IsRun(cfg, states, actions) && forall i :: 0 <= i < |actions| ==> Allowed(n, guarded, states[i], actions[i])
  }

  /** What holds throughout while no write can be out of order. */
  ghost predicate NoneOverwritten(n: nat, guarded: bool, o: Scoring) {
    o.overwritten == {} && (guarded || OneScorer(o))
  }

  lemma StepKeepsNoneOverwritten(cfg: Config, n: nat, guarded: bool, s: State, a: Action)
    requires n <= 1 || guarded
    requires Enabled(s, a) && Allowed(n, guarded, s, a) && NoneOverwritten(n, guarded, s.o) && ScoresOk(s.t.events, s.o)
    ensures NoneOverwritten(n, guarded, Apply(cfg, s, a).o)
  {
    hide Apply, Enabled, OneScorer, ScoresOk, InOrder;
    if !guarded { StepKeepsOneScorer(cfg, s, a); }
    StepInOrder(cfg, s, a);
  }

  lemma {:induction false} NothingOverwritten(cfg: Config, n: nat, guarded: bool, states: seq<State>,
                                              actions: seq<Action>,
                                              i: nat)
    requires n <= 1 || guarded
    requires IsRunOf(cfg, n, guarded, states, actions) && i < |states|
    ensures NoneOverwritten(n, guarded, states[i].o)
  {
    hide Apply, Enabled, Allowed, PipelineTheorems.Inv, ScoresOk;
    if i == 0 {
      assert states[0] == Initial();
    } else {
      NothingOverwritten(cfg, n, guarded, states, actions, i - 1);
      RunKeepsInv(cfg, states, actions, i - 1);
      InvScores(cfg, states[i - 1]);
      StepKeepsNoneOverwritten(cfg, n, guarded, states[i - 1], actions[i - 1]);
    }
  }

  lemma InvScores(cfg: Config, s: State)
    requires PipelineTheorems.Inv(cfg, s)
    ensures ScoresOk(s.t.events, s.o)
  {
  }

  // ------------------------------------------------------------------------------------- two scorers

  ghost predicate EndsIn(cfg: Config, states: seq<State>, actions: seq<Action>, s: State) {
    IsRunOf(cfg, 2, false, states, actions) && states[|actions|] == s
  }

  /** Some run of two scorers with the code's own update ends in `s`. */
  ghost predicate CanReach(cfg: Config, s: State) {
    exists states, actions :: EndsIn(cfg, states, actions, s)
  }

  lemma InitiallyReached(cfg: Config)
    ensures CanReach(cfg, Initial())
  {
    assert EndsIn(cfg, [Initial()], [], Initial());
  }

  lemma Next(cfg: Config, s: State, a: Action) returns (s': State)
    requires CanReach(cfg, s) && Enabled(s, a) && ScorerBelow(a, 2) && !(a.ScoreStep? && a.sa.SkipWrite?)
    ensures s' == Apply(cfg, s, a) && CanReach(cfg, s')
  {
    hide Enabled, Apply;
    s' := Apply(cfg, s, a);
    var states, actions :| EndsIn(cfg, states, actions, s);
    assert EndsIn(cfg, states + [s'], actions + [a], s');
  }

  const G: GroupKey := GroupKey("HKEX", "00700", Earnings)

  /** Nothing of the aggregation layer is under way in group G. */
  predicate Quiet(s: State) {
    && s.flush.Idle? && s.lastFlushed == map[] && s.o.announcers == map[] && s.running == map[]
    && (G in s.queues ==> s.queues[G] == [])
  }

  /** A new EntityEvent of group G is stored and announced, and its unit of work begins. */
  lemma EntityArrives(cfg: Config, s: State, e: EntityId, row: EntityEvent, m: MsgId) returns (s': State)
    requires CanReach(cfg, s) && Quiet(s) && e !in s.t.entities && m !in s.c.sent
    requires row.id == Some(e) && row.IsPersistent() && row.group == G
    ensures CanReach(cfg, s') && s'.running == map[G := Loaded(Job(m, e), Lookup(s.store, G))]
    ensures s' == s.(t := s.t.(entities := s.t.entities[e := row]), running := s'.running, queues := s'.queues,
        c := s'.c)
    ensures s'.c.sent == s.c.sent[m := Some(e)] && G in s'.queues && s'.queues[G] == []
  {
    hide CanReach;
    var s1 := EntityAnnounced(cfg, s, e, row, m);
    assert s1.queues[G] == [Job(m, e)];
    var s2 := Next(cfg, s1, Group(G, Begin));
    s' := Next(cfg, s2, Group(G, Load));
  }

  lemma EntityAnnounced(cfg: Config, s: State, e: EntityId, row: EntityEvent, m: MsgId) returns (s': State)
    requires CanReach(cfg, s) && Quiet(s) && e !in s.t.entities && m !in s.c.sent
    requires row.id == Some(e) && row.IsPersistent() && row.group == G
    ensures CanReach(cfg, s')
    ensures s' == s.(t := s.t.(entities := s.t.entities[e := row]), queues := s.queues[G := [Job(m, e)]], c := s'.c)
    ensures s'.c.sent == s.c.sent[m := Some(e)]
  {
    hide CanReach;
    var s1 := Next(cfg, s, Upstream(StoreEntity(e, row)));
    var s2 := Next(cfg, s1, Upstream(Arrive(m, Some(e))));
    s' := Next(cfg, s2, Consumer(Enqueue(m)));
    assert s'.queues[G] == [Job(m, e)];
    assert s'.queues == s.queues[G := [Job(m, e)]];
  }

  /** It is merged without replacing an Event. */
  lemma EntityMerges(cfg: Config, s: State, j: Job, newId: EventId, now: int, updated: Event) returns (s': State)
    requires CanReach(cfg, s) && s.running == map[G := Loaded(j, Lookup(s.store, G))] && G in s.queues
      && s.queues[G] == []
    requires s.flush.Idle? && s.lastFlushed == map[] && s.o.announcers == map[]
    requires CanDecide(s, G, newId, now) && VerdictOf(cfg, s, G, newId, now) == Merged(updated)
    requires !Replaces(Lookup(s.store, G), updated)
    ensures CanReach(cfg, s') && Quiet(s')
    ensures s'.store == s.store[G := updated] && s'.t == s.t && s'.o == s.o && s'.c.sent == s.c.sent
    ensures s'.h.latest == s.h.latest[updated.eventId := updated.version]
    ensures s'.h.groupOf == if updated.eventId == newId then s.h.groupOf[newId := G] else s.h.groupOf
  {
    hide CanReach, VerdictOf, CanDecide;
    var s1 := Next(cfg, s, Group(G, Decide(newId, now)));
    s' := Next(cfg, s1, Group(G, UpsertActive(true)));
  }

  /** A flush stores and announces the group's active Event, and marks it. */
  lemma FlushAnnounces(cfg: Config, s: State, n: MsgId) returns (s': State)
    requires CanReach(cfg, s) && Quiet(s) && G in s.store && n !in s.o.sent
    requires var ev := s.store[G].eventId;
             ev in s.t.events ==>
               s.t.events[ev].version < s.store[G].version && s.t.events[ev].published == Some(s.t.events[ev].version)
    ensures CanReach(cfg, s') && Quiet(s')
    ensures s'.store == s.store && s'.h == s.h && s'.c == s.c && s'.t.entities == s.t.entities
    ensures var a := s.store[G];
            && s'.t.events.Keys == s.t.events.Keys + {a.eventId}
            && s'.t.events[a.eventId].version == a.version && s'.t.events[a.eventId].published == Some(a.version)
            && s'.t.member == InsertMembers(s.t.member, a.eventId, a.ids)
            && s'.o == s.o.(sent := s.o.sent + {n}, unacked := s.o.unacked[n := a.eventId])
  {
    var s1 := FlushPersistsOne(cfg, s);
    s' := AnnouncesOne(cfg, s1, n);
  }

  lemma FlushPersistsOne(cfg: Config, s: State) returns (s': State)
    requires CanReach(cfg, s) && Quiet(s) && G in s.store
    ensures var a := s.store[G];
            && CanReach(cfg, s') && s' == s.(t := PersistOne(s.t, a), flush := Flushing([a]),
                    o := s.o.(announcers := map[Flusher := Querying([Pending(a.eventId, a.version)])]))
  {
    hide CanReach, PersistOne;
    var a := s.store[G];
    var s1 := Next(cfg, s, FlushStep(FlushStarts));
    var s2 := Next(cfg, s1, FlushStep(FlushScans(G)));
    assert s2.flush.seen == [a];
    ChangedAlone(a);
    s' := Next(cfg, s2, FlushStep(FlushPersists));
    assert VersionsOf([a]) == [Pending(a.eventId, a.version)];
  }

  lemma ChangedAlone(a: Event)
    ensures Changed(map[], [a]) == [a]
    ensures forall t :: PersistAll(t, [a]) == PersistOne(t, a)
  {
    assert [a][..0] == [];
    assert Changed(map[], []) == [];
    forall t ensures PersistAll(t, [a]) == PersistOne(t, a) { assert PersistAll(t, []) == t; }
  }

  lemma AnnouncesOne(cfg: Config, s: State, n: MsgId) returns (s': State)
    requires CanReach(cfg, s) && s.flush.Flushing? && n !in s.o.sent && s.running == map[] && s.lastFlushed == map[]
    requires (G in s.queues ==> s.queues[G] == []) && |s.flush.seen| == 1
    requires var a := s.flush.seen[0];
             && s.o.announcers == map[Flusher := Querying([Pending(a.eventId, a.version)])]
             && a.eventId in s.t.events && s.t.events[a.eventId].version == a.version && s.t.events[a.eventId].Behind()
    ensures var a := s.flush.seen[0];
            && CanReach(cfg, s') && Quiet(s')
            && s' == s.(t := s.t.(events :=
                          s.t.events[a.eventId := s.t.events[a.eventId].(published := Some(a.version))]),
                        o := s.o.(announcers := map[], sent := s.o.sent + {n}, unacked := s.o.unacked[n := a.eventId]),
                        flush := Idle)
  {
    hide CanReach;
    var a := s.flush.seen[0];
    var d := Pending(a.eventId, a.version);
    assert [d][1..] == [] && [d][0] == d;
    OnePending(s.t.events, d);
    hide Unpublished;
    var s1 := Next(cfg, s, Announce(Flusher, Query([d])));
    var s2 := Next(cfg, s1, Announce(Flusher, Publish(n, true)));
    var s3 := Next(cfg, s2, Announce(Flusher, Mark));
    s' := Next(cfg, s3, FlushStep(FlushFails));
  }

  lemma OnePending(events: Rows, d: Pending)
    requires d.event in events && events[d.event].version == d.version && events[d.event].Behind()
    ensures Unpublished(events, EventsOf([d]), [d])
  {
    assert EventsOf([d]) == {d.event} by { assert [d][0] == d; }
  }

  /** Scorer `k` receives the message, reads, and passes the version check. */
  lemma ScorerChecks(cfg: Config, s: State, k: nat, n: MsgId) returns (s': State)
    requires CanReach(cfg, s) && k < 2 && k !in s.o.scorers && n in s.o.unacked && s.o.unacked[n] in s.t.events
    ensures var ev := s.o.unacked[n];
            && CanReach(cfg, s')
            && s' == s.(o := s.o.(delivered := s.o.delivered + {n}, scorers := s.o.scorers[k :=
                 Scorer(n, ev, Checked(s.t.events[ev].version, MembersOf(s.t.member, ev)))]))
  {
    hide CanReach, MembersOf;
    var s1 := Next(cfg, s, ScoreStep(k, Deliver(n)));
    var s2 := Next(cfg, s1, ScoreStep(k, ReadEvent));
    var s3 := Next(cfg, s2, ScoreStep(k, ReadMembers));
    s' := Next(cfg, s3, ScoreStep(k, CheckVersion));
  }

  /** Its write lands, is announced, and the message is ACKed. */
  lemma ScorerWrites(cfg: Config, s: State, k: nat) returns (s': State)
    requires CanReach(cfg, s) && k in s.o.scorers && s.o.scorers[k].phase.Checked?
    ensures var w := s.o.scorers[k]; var score := Score(w.phase.version, w.phase.members);
            && CanReach(cfg, s')
            && s' == s.(o := s.o.(scores := s.o.scores[w.event := score], unacked := s.o.unacked - {w.msg},
                                  scorers := s.o.scorers - {k},
                                  announced := s.o.announced + {Pending(w.event, w.phase.version)},
                                  overwritten :=
                                    if Outdated(s.o, w) then s.o.overwritten + {w.event} else s.o.overwritten))
  {
    hide CanReach;
    var s1 := Next(cfg, s, ScoreStep(k, WriteScore));
    var s2 := Next(cfg, s1, ScoreStep(k, AnnounceScore));
    s' := Next(cfg, s2, ScoreStep(k, AckScore));
  }

  /** The row is at its second version, marked announced; the score is of the first, and no message is left. */
  predicate ScoreLost(s: State, ev: EventId) {
    && ev in s.t.events && s.t.events[ev].version == 2 && s.t.events[ev].published == Some(2)
    && ev in s.o.scores && s.o.scores[ev].version == 1
    && s.o.unacked == map[] && s.o.scorers == map[] && ev in s.o.overwritten
  }

  function Row(e: EntityId): EntityEvent { EntityEvent(Some(e), G, Some(0), Some(0)) }

  const CFG: Config := Config(1, 2, 60)

  /** The first scorer has checked version 1 of Event 7 when a second EntityEvent arrives. */
  lemma FirstScorerChecks() returns (s': State)
    ensures CanReach(CFG, s') && Quiet(s') && s'.store == map[G := Event(7, G, 0, 0, 1, [1])]
    ensures s'.t.entities == map[1 := Row(1)] && s'.t.member.Keys == {1} && s'.c.sent.Keys == {1}
    ensures s'.t.events.Keys == {7} && s'.t.events[7].version == 1 && s'.t.events[7].published == Some(1)
    ensures s'.h.latest == map[7 := 1] && s'.h.groupOf == map[7 := G]
    ensures s'.o.sent == {1} && s'.o.unacked == map[1 := 7] && s'.o.scores == map[] && s'.o.overwritten == {}
    ensures s'.o.scorers.Keys == {0} && s'.o.scorers[0].msg == 1 && s'.o.scorers[0].event == 7
    ensures s'.o.scorers[0].phase.Checked? && s'.o.scorers[0].phase.version == 1
  {
    hide CanReach;
    InitiallyReached(CFG);
    var s1 := EntityArrives(CFG, Initial(), 1, Row(1), 1);
    var s2 := EntityMerges(CFG, s1, Job(1, 1), 7, 1, Event(7, G, 0, 0, 1, [1]));
    var s3 := FlushAnnounces(CFG, s2, 1);
    s' := ScorerChecks(CFG, s3, 0, 1);
  }

  /** The second EntityEvent joins the Event, as its version 2. */
  lemma SecondJoins(s: State) returns (s': State)
    requires CanReach(CFG, s) && Quiet(s) && s.store == map[G := Event(7, G, 0, 0, 1, [1])]
    requires s.t.entities == map[1 := Row(1)] && s.t.member.Keys == {1} && s.c.sent.Keys == {1}
    requires s.h.latest == map[7 := 1] && s.h.groupOf == map[7 := G]
    ensures CanReach(CFG, s') && Quiet(s') && s'.store == map[G := Event(7, G, 0, 0, 2, [1, 2])]
    ensures s'.t.events == s.t.events && s'.o == s.o
  {
    hide CanReach;
    var s1 := EntityArrives(CFG, s, 2, Row(2), 2);
    SecondVerdict(s1);
    hide VerdictOf;
    s' := EntityMerges(CFG, s1, Job(2, 2), 8, 2, Event(7, G, 0, 0, 2, [1, 2]));
  }

  lemma SecondVerdict(s: State)
    requires s.running == map[G := Loaded(Job(2, 2), Some(Event(7, G, 0, 0, 1, [1])))]
    requires 2 in s.t.entities && s.t.entities[2] == Row(2) && s.t.member.Keys == {1}
    requires s.h.latest == map[7 := 1] && s.h.groupOf == map[7 := G]
    ensures CanDecide(s, G, 8, 2) && VerdictOf(CFG, s, G, 8, 2) == Merged(Event(7, G, 0, 0, 2, [1, 2]))
  {
  }

  /** Its second version is flushed, and scored by the second scorer. */
  lemma SecondScorerWrites(s: State) returns (s': State)
    requires CanReach(CFG, s) && Quiet(s) && s.store == map[G := Event(7, G, 0, 0, 2, [1, 2])]
    requires s.t.events.Keys == {7} && s.t.events[7].version == 1 && s.t.events[7].published == Some(1)
    requires s.o.sent == {1} && s.o.unacked == map[1 := 7] && s.o.overwritten == {}
    requires s.o.scorers.Keys == {0}
    ensures CanReach(CFG, s') && s'.t.events.Keys == {7} && s'.t.events[7].version == 2
      && s'.t.events[7].published == Some(2)
    ensures s'.o.unacked == map[1 := 7] && s'.o.scorers == s.o.scorers
    ensures 7 in s'.o.scores && s'.o.scores[7].version == 2
  {
    hide CanReach, Quiet, InsertMembers, MembersOf;
    var s1 := FlushAnnounces(CFG, s, 2);
    var s2 := ScorerChecks(CFG, s1, 1, 2);
    s' := ScorerWrites(CFG, s2, 1);
    assert s'.o.unacked == map[1 := 7];
    assert s'.o.scorers == s.o.scorers;
  }

  /**
   The first scorer's check passes at version 1; the Event is flushed and announced at version 2, which the
   second scorer scores, announces and ACKs; then the first one's update lands, and is announced and
   ACKed too. Nothing is left that would score version 2.
   */
  lemma TwoScorersCanLose() returns (s': State)
    ensures CanReach(CFG, s') && ScoreLost(s', 7)
  {
    hide CanReach;
    var s1 := FirstScorerChecks();
    var s2 := SecondJoins(s1);
    var s3 := SecondScorerWrites(s2);
    s' := ScorerWrites(CFG, s3, 0);
  }

  // ------------------------------------------------------------------------------ the exact condition

  ghost predicate LosesScore(cfg: Config, n: nat, guarded: bool, states: seq<State>, actions: seq<Action>, ev: EventId)
  {
    && IsRunOf(cfg, n, guarded, states, actions)
    && ev in states[|actions|].t.events && !ScoredOrOwed(states[|actions|], ev)
  }

  /** No run leaves the current version of an Event unscored with nothing left that owes it. */
  ghost predicate NeverLosesScore(n: nat, guarded: bool) {
    forall cfg, states, actions, ev :: !LosesScore(cfg, n, guarded, states, actions, ev)
  }

  ghost predicate TakesScoreBack(cfg: Config, n: nat, guarded: bool, states: seq<State>, actions: seq<Action>,
                                 ev: EventId)
  {
    IsRunOf(cfg, n, guarded, states, actions) && GoesBack(states, ev)
  }

  /** No run takes the scored version of an Event back. */
  ghost predicate NeverTakesScoreBack(n: nat, guarded: bool) {
    forall cfg, states, actions, ev :: !TakesScoreBack(cfg, n, guarded, states, actions, ev)
  }

  lemma LostIsNotOwed(s: State, ev: EventId)
    requires ScoreLost(s, ev)
    ensures !ScoredOrOwed(s, ev)
  {
  }

  /** A run of two scorers with the code's update is one of any larger number of them. */
  lemma MoreScorersToo(cfg: Config, states: seq<State>, actions: seq<Action>, n: nat)
    requires IsRunOf(cfg, 2, false, states, actions) && n >= 2
    ensures IsRunOf(cfg, n, false, states, actions)
  {
    hide IsRun;
  }

  lemma TwoScorersLoseAndGoBack(n: nat)
    requires n >= 2
    ensures !NeverLosesScore(n, false) && !NeverTakesScoreBack(n, false)
  {
    hide ScoredOrOwed, GoesBack, IsRun;
    var s := TwoScorersCanLose();
    var states, actions :| EndsIn(CFG, states, actions, s);
    MoreScorersToo(CFG, states, actions, n);
    LostIsNotOwed(s, 7);
    assert LosesScore(CFG, n, false, states, actions, 7);
    ScoresGoBackExactlyIfOverwritten(CFG, states, actions, 7);
    assert TakesScoreBack(CFG, n, false, states, actions, 7);
  }

  lemma InOrderKeepsBoth(cfg: Config, n: nat, guarded: bool, states: seq<State>, actions: seq<Action>, ev: EventId)
    requires n <= 1 || guarded
    ensures !LosesScore(cfg, n, guarded, states, actions, ev) && !TakesScoreBack(cfg, n, guarded, states, actions, ev)
  {
    hide ScoredOrOwed, GoesBack, Allowed, Enabled, Apply, OneScorer;
    if IsRunOf(cfg, n, guarded, states, actions) {
      NothingOverwritten(cfg, n, guarded, states, actions, |actions|);
      if ev in states[|actions|].t.events { EveryVersionScoredOrOwed(cfg, states, actions, |actions|, ev); }
      ScoresGoBackExactlyIfOverwritten(cfg, states, actions, ev);
    }
  }

  /** Both hold of every run exactly if there is at most one scorer at once, or its update skips newer scores. */
  lemma ScoresAreSafeExactlyWhen(n: nat, guarded: bool)
    ensures NeverLosesScore(n, guarded) <==> n <= 1 || guarded
    ensures NeverTakesScoreBack(n, guarded) <==> n <= 1 || guarded
  {
    hide LosesScore, TakesScoreBack;
    if n <= 1 || guarded {
      forall cfg, states, actions, ev
        ensures !LosesScore(cfg, n, guarded, states, actions, ev)
          && !TakesScoreBack(cfg, n, guarded, states, actions, ev)
      {
        InOrderKeepsBoth(cfg, n, guarded, states, actions, ev);
      }
    } else {
      TwoScorersLoseAndGoBack(n);
    }
  }
}
