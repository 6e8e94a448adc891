/**
 Nothing the pipeline can run into is a dead end: from every reachable state, whatever has failed or
 crashed so far, some continuation finishes each message, and some continuation stores, announces and scores
 each active Event.
 */
module Progress {
  import opened Common
  import opened SlidingWindow
  import opened Tables
  import opened Pipeline
  import opened Ownership
  import opened Coverage
  import opened AckSafety
  import FlushCache
  import ScoreExactness
  import T = PipelineTheorems

  // ----- Continuations -----

  /** The state after these actions, if each of them is enabled in its turn. */
  ghost function Execute(cfg: Config, s: State, actions: seq<Action>): Option<State>
    decreases |actions|
  {
    if actions == [] then Some(s)
    else if Enabled(s, actions[0]) then Execute(cfg, Apply(cfg, s, actions[0]), actions[1..])
    else None
  }

  ghost predicate CanReach(cfg: Config, s: State, s': State) {
    exists actions :: Execute(cfg, s, actions) == Some(s')
  }

  /** A continuation of `s0` can get to `s`, where the invariants still hold. */
  ghost predicate Reached(cfg: Config, s0: State, s: State) {
    CanReach(cfg, s0, s) && T.Inv(cfg, s)
  }

  lemma {:induction false} ExecuteOneMore(cfg: Config, s: State, actions: seq<Action>, t: State, a: Action)
    requires Execute(cfg, s, actions) == Some(t) && Enabled(t, a)
    ensures Execute(cfg, s, actions + [a]) == Some(Apply(cfg, t, a))
    decreases |actions|
  {
    hide Enabled, Apply;
    if actions == [] {
      assert Execute(cfg, Apply(cfg, t, a), []) == Some(Apply(cfg, t, a));
      assert [a][1..] == [];
    } else {
      ExecuteOneMore(cfg, Apply(cfg, s, actions[0]), actions[1..], t, a);
      assert (actions + [a])[1..] == actions[1..] + [a];
    }
  }

  lemma Start(cfg: Config, s: State)
    requires T.Inv(cfg, s)
    ensures Reached(cfg, s, s)
  {
    assert Execute(cfg, s, []) == Some(s);
  }

  lemma Go(cfg: Config, s0: State, s: State, a: Action) returns (s': State)
    requires Reached(cfg, s0, s) && Enabled(s, a)
    ensures Reached(cfg, s0, s') && s' == Apply(cfg, s, a)
  {
    hide Enabled, Apply, T.Inv;
    s' := Apply(cfg, s, a);
    var actions :| Execute(cfg, s0, actions) == Some(s);
    ExecuteOneMore(cfg, s0, actions, s, a);
    T.StepKeepsInv(cfg, s, a);
  }

  // ----- A scorer -----

  lemma ScorerGoes(cfg: Config, s0: State, s: State, k: nat, a: ScoreAction) returns (s': State)
    requires Reached(cfg, s0, s) && CanScore(s, k, a)
    ensures Reached(cfg, s0, s') && s' == s.(o := Scored(s.t, s.o, k, a))
  {
    hide Scored, CanScore, Reached;
    s' := Go(cfg, s0, s, ScoreStep(k, a));
  }

  /** How many steps the scorer still has before its ACK. */
  function Left(phase: Phase): nat {
    match phase
    case Reading => 5
    case HasEvent(_) => 4
    case HasMembers(_, _) => 3
    case Checked(_, _) => 2
    case Written(_) => 1
    case Finished(_) => 0
  }

  function NextStep(phase: Phase): ScoreAction {
    match phase
    case Reading => ReadEvent
    case HasEvent(_) => ReadMembers
    case HasMembers(_, _) => CheckVersion
    case Checked(_, _) => WriteScore
    case Written(_) => ScoreAction.AnnounceScore
    case Finished(_) => AckScore
  }

  /** Scorer `k` handles `ev`, has read no version of it but `v`, and what it has done of its work is done. */
  predicate Standing(o: Scoring, k: nat, ev: EventId, v: int) {
    && k in o.scorers && o.scorers[k].event == ev && ReadOnly(o.scorers[k].phase, v)
    && (o.scorers[k].phase.Written? ==> ScoredAt(o, ev, v))
    && (o.scorers[k].phase.Finished? ==> Settled(o, ev, v))
  }

  /** One step of a scorer whose Event stands still. */
  lemma ScorerSteps(t: Tables, o: Scoring, k: nat, ev: EventId, v: int)
    requires Standing(o, k, ev, v) && ev in t.events && t.events[ev].version == v
    requires ev in o.scores ==> o.scores[ev].version <= v
    ensures var phase := o.scorers[k].phase; var o' := Scored(t, o, k, NextStep(phase));
            && o'.overwritten == o.overwritten
            && (phase.Finished? ==> Settled(o', ev, v) && o.scorers[k].msg !in o'.unacked)
            && (!phase.Finished? ==>
                  && Standing(o', k, ev, v) && o'.scorers[k].msg == o.scorers[k].msg
                  && Left(o'.scorers[k].phase) < Left(phase))
  {
    hide MembersOf;
  }

  /** While no other step comes in between, a scorer goes on to score the stored version and to ACK its message. */
  lemma {:induction false} ScorerFinishes(cfg: Config, s0: State, s: State, k: nat, ev: EventId, v: int)
    returns (s': State)
    requires Reached(cfg, s0, s) && Standing(s.o, k, ev, v) && ev in s.t.events && s.t.events[ev].version == v
    ensures Reached(cfg, s0, s') && s' == s.(o := s'.o) && s'.o.overwritten == s.o.overwritten
    ensures Settled(s'.o, ev, v) && s.o.scorers[k].msg !in s'.o.unacked
    decreases Left(s.o.scorers[k].phase)
  {
    hide Reached, Settled, Scored, ScoredAt;
    var phase := s.o.scorers[k].phase;
    NoneIsNewer(cfg, s0, s, ev);
    ScorerSteps(s.t, s.o, k, ev, v);
    var s1 := ScorerGoes(cfg, s0, s, k, NextStep(phase));
    if phase.Finished? {
      s' := s1;
    } else {
      s' := ScorerFinishes(cfg, s0, s1, k, ev, v);
    }
  }

  /** No score is of a newer version than the stored one. */
  lemma NoneIsNewer(cfg: Config, s0: State, s: State, ev: EventId)
    requires Reached(cfg, s0, s) && ev in s.t.events
    ensures ev in s.o.scores ==> s.o.scores[ev].version <= s.t.events[ev].version
  {
    hide Ownership.Inv, AckSafety.Inv, FlushCache.Inv, ScoreExactness.Inv, CanReach;
  }

  /** A message not delivered yet can be delivered to a new scorer, which scores the version now stored. */
  lemma ScoringFinishes(cfg: Config, s0: State, s: State, n: MsgId) returns (s': State)
    requires Reached(cfg, s0, s) && n in s.o.unacked && n !in s.o.delivered && s.o.unacked[n] in s.t.events
    ensures Reached(cfg, s0, s') && s' == s.(o := s'.o) && n !in s'.o.unacked && s'.o.overwritten == s.o.overwritten
    ensures var ev := s.o.unacked[n]; Settled(s'.o, ev, s.t.events[ev].version)
  {
    hide Reached, Settled;
    var k := Unused(s.o.scorers.Keys);
    var s1 := ScorerGoes(cfg, s0, s, k, Deliver(n));
    s' := ScorerFinishes(cfg, s0, s1, k, s.o.unacked[n], s.t.events[s.o.unacked[n]].version);
  }

  /** A live scorer whose message covers the stored version settles it, if no older score replaced a newer one. */
  lemma HeldIsStanding(cfg: Config, s0: State, s: State, n: MsgId, k: nat, ev: EventId)
    requires Reached(cfg, s0, s) && ev in s.t.events && ev !in s.o.overwritten
    requires Covers(s.o, n, ev, s.t.events[ev].version) && k in s.o.scorers && s.o.scorers[k].msg == n
    ensures Standing(s.o, k, ev, s.t.events[ev].version)
  {
    hide Ownership.Inv, AckSafety.Inv, FlushCache.Inv, ScoreExactness.Inv, CanReach;
    assert ScorerOk(s.t.events[s.o.scorers[k].event], s.o, s.o.scorers[k]);
  }

  // ----- An announcer -----

  lemma AnnouncerGoes(cfg: Config, s0: State, s: State, p: Party, a: AnnounceAction) returns (s': State)
    requires Reached(cfg, s0, s) && CanAnnounce(s, p, a)
    ensures Reached(cfg, s0, s') && s' == AnnounceStep(s, p, a)
  {
    hide AnnounceStep, CanAnnounce, Reached;
    s' := Go(cfg, s0, s, Announce(p, a));
  }

  /** A run of `_persist_and_publish` for one stored Event can come to its end, with the stored version announced. */
  lemma AnnouncerFinishes(cfg: Config, s0: State, s: State, p: Party, ev: EventId, v: int) returns (s': State)
    requires Reached(cfg, s0, s) && p in s.o.announcers && s.o.announcers[p] == Querying([Pending(ev, v)])
    requires ev in s.t.events
    ensures Reached(cfg, s0, s') && Done(s'.o, p)
    ensures s' == s.(t := s.t.(events := s'.t.events), o := s'.o)
    ensures ev in s'.t.events && !s'.t.events[ev].Behind() && s'.t.events[ev].version == s.t.events[ev].version
    ensures Sends(s.o, s'.o)
    ensures if s.t.events[ev].Behind() then NewMessageFor(s'.o, ev) else s'.o.unacked == s.o.unacked
  {
    hide Reached, Unpublished, AnnounceStep, CanAnnounce, NewMessageFor;
    if s.t.events[ev].Behind() {
      var d := Pending(ev, s.t.events[ev].version);
      var s1 := AnnouncerQueries(cfg, s0, s, p, ev, v, [d]);
      s' := OneAnnouncement(cfg, s0, s1, p, [Pending(ev, v)], d);
    } else {
      s' := AnnouncerQueries(cfg, s0, s, p, ev, v, []);
    }
  }

  lemma AnnouncerQueries(cfg: Config, s0: State, s: State, p: Party, ev: EventId, v: int, todo: seq<Pending>)
    returns (s': State)
    requires Reached(cfg, s0, s) && p in s.o.announcers && s.o.announcers[p] == Querying([Pending(ev, v)])
    requires ev in s.t.events && todo == if s.t.events[ev].Behind() then [Pending(ev, s.t.events[ev].version)] else []
    ensures Reached(cfg, s0, s')
    ensures s' == s.(o := s.o.(announcers := s.o.announcers[p := Publishing([Pending(ev, v)], todo)]))
  {
    hide Reached, Unpublished;
    OneUnpublished(s.t.events, ev, v, todo);
    s' := AnnouncerGoes(cfg, s0, s, p, Query(todo));
  }

  lemma OneAnnouncement(cfg: Config, s0: State, s: State, p: Party, targets: seq<Pending>, d: Pending)
    returns (s': State)
    requires Reached(cfg, s0, s) && p in s.o.announcers && s.o.announcers[p] == Publishing(targets, [d])
    requires d.event in s.t.events && s.t.events[d.event].version == d.version
    ensures Reached(cfg, s0, s') && Done(s'.o, p)
    ensures s' == s.(t := s.t.(events := s'.t.events), o := s'.o)
    ensures d.event in s'.t.events && !s'.t.events[d.event].Behind() && s'.t.events[d.event].version == d.version
    ensures Sends(s.o, s'.o) && NewMessageFor(s'.o, d.event)
  {
    hide Reached;
    var n := Unused(s.o.sent + s.o.delivered);
    var s1 := AnnouncerGoes(cfg, s0, s, p, Publish(n, true));
    assert s1.o.announcers[p] == Marking(targets, [d]) && s1.t == s.t;
    s' := AnnouncerGoes(cfg, s0, s1, p, Mark);
    assert [d][1..] == [];
    assert n in s'.o.unacked;
  }

  /** At most announcers have moved and messages have been sent. */
  predicate Sends(o: Scoring, o': Scoring) {
    && o'.overwritten == o.overwritten && o'.scorers == o.scorers && o'.delivered == o.delivered
    && o'.scores == o.scores && o'.announced == o.announced
  }

  /** A message for the Event is there that no scorer has been given. */
  ghost predicate NewMessageFor(o: Scoring, ev: EventId) {
    exists n :: n in o.unacked && o.unacked[n] == ev && n !in o.delivered
  }

  lemma OneUnpublished(events: map<EventId, EventRow>, ev: EventId, v: int, todo: seq<Pending>)
    requires ev in events
    requires todo == if events[ev].Behind() then [Pending(ev, events[ev].version)] else []
    ensures Unpublished(events, EventsOf([Pending(ev, v)]), todo)
  {
    OnlyEvent(ev, v);
  }

  lemma OnlyEvent(ev: EventId, v: int)
    ensures EventsOf([Pending(ev, v)]) == {ev}
  {
    assert [Pending(ev, v)][0].event == ev;
  }

  // ----- A flush -----

  /** As after a crash: no coroutine is under way, and the cache is empty. */
  predicate Quiet(s: State) {
    && s.queues == map[] && s.running == map[] && s.flush.Idle? && s.lastFlushed == map[]
    && s.c.toAck == {} && s.o.announcers == map[]
  }

  lemma Restarts(cfg: Config, s0: State, s: State) returns (s': State)
    requires Reached(cfg, s0, s)
    ensures Reached(cfg, s0, s') && Quiet(s')
    ensures s'.t == s.t && s'.store == s.store && s'.h == s.h && s'.c == s.c.(toAck := {})
    ensures s'.o == s.o.(announcers := map[])
  {
    hide Reached;
    s' := Go(cfg, s0, s, Crash);
  }

  lemma FlushGoes(cfg: Config, s0: State, s: State, a: FlushAction) returns (s': State)
    requires Reached(cfg, s0, s) && CanFlush(s, a)
    ensures Reached(cfg, s0, s') && s' == FlushEffect(s, a)
  {
    hide FlushEffect, CanFlush, Reached;
    s' := Go(cfg, s0, s, FlushStep(a));
  }

  /** With nothing else under way, a flush can store and announce a group's active Event. */
  lemma FlushFinishes(cfg: Config, s0: State, s: State, g: GroupKey) returns (s': State)
    requires Reached(cfg, s0, s) && Quiet(s) && g in s.store
    ensures Reached(cfg, s0, s') && s'.store == s.store && s'.h == s.h && s'.c == s.c
    ensures s'.t.entities == s.t.entities && Sends(s.o, s'.o)
    ensures var a := s.store[g]; StoredAt(s'.t.events, a.eventId, a.version) && !s'.t.events[a.eventId].Behind()
    ensures AnnouncedAlready(s, s.store[g]) ==> s'.o.unacked == s.o.unacked
    ensures !AnnouncedAlready(s, s.store[g]) ==> NewMessageFor(s'.o, s.store[g].eventId)
  {
    hide Reached, Changed, PersistAll, Advances;
    var a := s.store[g];
    var s1 := FlushGoes(cfg, s0, s, FlushStarts);
    var s2 := FlushGoes(cfg, s0, s1, FlushScans(g));
    assert s2.flush.seen == [a];
    AllChanged(a);
    var s3 := FlushGoes(cfg, s0, s2, FlushPersists);
    OwedUnlessAnnounced(cfg, s0, s, a);
    assert VersionsOf([a]) == [Pending(a.eventId, a.version)];
    var s4 := AnnouncerFinishes(cfg, s0, s3, Flusher, a.eventId, a.version);
    s' := FlushGoes(cfg, s0, s4, FlushEnds);
  }

  /** The Event is stored at its version or newer, and that version announced. */
  predicate AnnouncedAlready(s: State, a: Event) {
    StoredAt(s.t.events, a.eventId, a.version) && !s.t.events[a.eventId].Behind()
  }

  /** Persisting an Event leaves its version owed, unless that one was announced already. */
  lemma OwedUnlessAnnounced(cfg: Config, s0: State, s: State, a: Event)
    requires Reached(cfg, s0, s)
    ensures var events := PersistAll(s.t, [a]).events;
            StoredAt(events, a.eventId, a.version) && (events[a.eventId].Behind() <==> !AnnouncedAlready(s, a))
    ensures PersistAll(s.t, [a]).entities == s.t.entities
  {
    hide Ownership.Inv, AckSafety.Inv, FlushCache.Inv, ScoreExactness.Inv, CanReach, MessagesOk, ScorersOk, ScoresOk,
         AnnouncersOk, AllCovered;
    assert [a][..0] == [];
    assert PersistAll(s.t, [a]).events == Upsert(s.t.events, a);
  }

  lemma AllChanged(a: Event)
    ensures Changed(map[], [a]) == [a]
  {
    assert [a][..0] == [];
  }

  /** The stored version of an active Event is never ahead of it, and maps everything it lists once it is up to date. */
  lemma StoredActiveIsMapped(cfg: Config, s: State, g: GroupKey)
    requires T.Inv(cfg, s) && g in s.store && StoredAt(s.t.events, s.store[g].eventId, s.store[g].version)
    ensures var a := s.store[g];
            && s.t.events[a.eventId].version == a.version
            && (forall e :: e in a.ids ==> e in s.t.member && s.t.member[e] == a.eventId)
  {
    hide Spanning, NothingLost, QueuesOk, SeenOk, AllRunningOk, Coverage.Inv, AckSafety.Inv, FlushCache.Inv,
         ScoreExactness.Inv, RowSpans;
    var a := s.store[g];
    assert RowOk(s.h, s.t.entities, a.eventId, s.t.events[a.eventId]);
    forall e | e in a.ids ensures e in s.t.member && s.t.member[e] == a.eventId {
      assert Owns(s.h, a.eventId, a.version, e);
      StoredMeansMapped(cfg, s.h, s.t, a, e);
    }
  }

  /** A message for the Event was delivered to a scorer that failed: it stays un-ACKed, and is delivered no more. */
  ghost predicate LeftBehind(o: Scoring, ev: EventId) {
    exists n :: n in o.unacked && o.unacked[n] == ev && n in o.delivered && !T.IsHeld(o, n)
  }

  /** A group's active Event can be stored, with its members, announced and scored at its version. */
  lemma ActiveFinishes(cfg: Config, s0: State, s: State, g: GroupKey) returns (s': State)
    requires Reached(cfg, s0, s) && g in s.store
    ensures Reached(cfg, s0, s') && s'.store == s.store && s'.h == s.h && s'.c == s.c.(toAck := {})
    ensures s'.t.entities == s.t.entities && s'.o.overwritten == s.o.overwritten
    ensures IsPersisted(s', s.store[g]) && SettledIfCanBe(s, s', s.store[g])
  {
    hide Reached, T.Inv, Settled, Quiet, T.IsHeld;
    var a := s.store[g];
    var s1 := Restarts(cfg, s0, s);
    var s2 := FlushFinishes(cfg, s0, s1, g);
    ReachedIsSound(cfg, s0, s2);
    StoredActiveIsMapped(cfg, s2, g);
    if NewMessageFor(s2.o, a.eventId) {
      var n :| n in s2.o.unacked && s2.o.unacked[n] == a.eventId && n !in s2.o.delivered;
      s' := ScoringFinishes(cfg, s0, s2, n);
    } else if a.eventId in s2.o.overwritten || Settled(s2.o, a.eventId, a.version) {
      s' := s2;
    } else {
      T.InvCovers(cfg, s2, a.eventId);
      var n :| Covers(s2.o, n, a.eventId, a.version);
      if T.IsHeld(s2.o, n) {
        s' := HolderFinishes(cfg, s0, s2, n, a.eventId);
      } else {
        HeldAlike(s.o, s2.o, n);
        s' := s2;
      }
    }
  }

  lemma HeldAlike(o: Scoring, o': Scoring, n: MsgId)
    requires o'.scorers == o.scorers
    ensures T.IsHeld(o', n) <==> T.IsHeld(o, n)
  {
  }

  lemma HolderFinishes(cfg: Config, s0: State, s: State, n: MsgId, ev: EventId) returns (s': State)
    requires Reached(cfg, s0, s) && ev in s.t.events && ev !in s.o.overwritten
    requires Covers(s.o, n, ev, s.t.events[ev].version) && T.IsHeld(s.o, n)
    ensures Reached(cfg, s0, s') && s' == s.(o := s'.o) && s'.o.overwritten == s.o.overwritten
    ensures Settled(s'.o, ev, s.t.events[ev].version)
  {
    hide Reached, Settled, Covers, Standing;
    var k :| k in s.o.scorers && s.o.scorers[k].msg == n;
    HeldIsStanding(cfg, s0, s, n, k, ev);
    s' := ScorerFinishes(cfg, s0, s, k, ev, s.t.events[ev].version);
  }

  /** The Event is stored and announced at its version, and its EntityEvents are mapped to it. */
  ghost predicate IsPersisted(s: State, a: Event) {
    && a.eventId in s.t.events && s.t.events[a.eventId].version == a.version && !s.t.events[a.eventId].Behind()
    && (forall e :: e in a.ids ==> e in s.t.member && s.t.member[e] == a.eventId)
  }

  /** Its version is scored, unless it had been announced before and a scorer then failed or overwrote its score. */
  ghost predicate SettledIfCanBe(s: State, s': State, a: Event) {
    || Settled(s'.o, a.eventId, a.version)
    || (AnnouncedAlready(s, a) && (a.eventId in s.o.overwritten || LeftBehind(s.o, a.eventId)))
  }

  lemma ReachedIsSound(cfg: Config, s0: State, s: State)
    requires Reached(cfg, s0, s)
    ensures T.Inv(cfg, s)
  {
    hide T.Inv;
  }

  // ----- A group's job -----

  lemma GroupGoes(cfg: Config, s0: State, s: State, g: GroupKey, a: GroupAction) returns (s': State)
    requires Reached(cfg, s0, s) && CanGroup(s, g, a)
    ensures Reached(cfg, s0, s') && s' == GroupStep(cfg, s, g, a)
  {
    hide GroupStep, CanGroup, Reached;
    s' := Go(cfg, s0, s, Group(g, a));
  }

  /** The message's EntityEvent can be queued, begun and matched with its group's active Event. */
  lemma JobLoads(cfg: Config, s0: State, s: State, m: MsgId) returns (s': State)
    requires Reached(cfg, s0, s) && Quiet(s) && Routable(s, m) && s.c.sent[m].value in s.t.entities
    ensures var e := s.c.sent[m].value; var g := s.t.entities[e].group;
            && Reached(cfg, s0, s') && g in s'.running
            && s'.running[g] == Loaded(Job(m, e), Lookup(s.store, g))
            && s'.t == s.t && s'.store == s.store && s'.h == s.h && s'.c == s.c && s'.o == s.o
  {
    hide Reached;
    var e := s.c.sent[m].value;
    var g := s.t.entities[e].group;
    var s1 := Go(cfg, s0, s, Consumer(Enqueue(m)));
    assert s1 == ConsumerStep(s, Enqueue(m));
    assert s1.queues[g] == [] + [Job(m, e)];
    var s2 := GroupGoes(cfg, s0, s1, g, Begin);
    s' := GroupGoes(cfg, s0, s2, g, Load);
  }

  lemma JobDecides(cfg: Config, s0: State, s: State, g: GroupKey) returns (s': State)
    requires Reached(cfg, s0, s) && g in s.running && s.running[g].Loaded?
    ensures Reached(cfg, s0, s') && T.Decided(cfg, s, s', g)
    ensures s'.t == s.t && s'.store == s.store && s'.c == s.c.(toAck := s'.c.toAck, late := s'.c.late) && s'.o == s.o
  {
    hide Reached, T.Inv, T.Decided, VerdictOf;
    ReachedIsSound(cfg, s0, s);
    T.JobIsStored(cfg, s, g);
    var r := s.running[g];
    var newId := Unused(s.h.groupOf.Keys);
    var now := if r.active.Some? && r.active.value.eventId in s.h.latest then s.h.latest[r.active.value.eventId] + 1
               else 0;
    T.DecideIsExact(cfg, s, g, newId, now);
    s' := GroupGoes(cfg, s0, s, g, Decide(newId, now));
  }

  /** A job that replaces an active Event can persist and announce that one. */
  lemma JobReplaces(cfg: Config, s0: State, s: State, g: GroupKey) returns (s': State)
    requires Reached(cfg, s0, s) && g in s.running && s.running[g].Replacing? && s.running[g].active.Some?
    ensures Reached(cfg, s0, s') && g in s'.running && s'.running[g].Upserting?
    ensures s'.running[g].job == s.running[g].job && s'.running[g].updated == s.running[g].updated
    ensures s'.t.entities == s.t.entities && s'.store == s.store && s'.c == s.c && s'.o.overwritten == s.o.overwritten
  {
    hide Reached, PersistAll, Advances;
    var a := s.running[g].active.value;
    var s1 := GroupGoes(cfg, s0, s, g, PersistReplaced);
    PersistAllAdvances(s.t, [a]);
    assert StoredAt(s1.t.events, [a][0].eventId, [a][0].version);
    assert VersionsOf([a]) == [Pending(a.eventId, a.version)];
    var s2 := AnnouncerFinishes(cfg, s0, s1, OfGroup(g), a.eventId, a.version);
    s' := GroupGoes(cfg, s0, s2, g, ReplacedAnnounced);
  }

  /** Replacing an active Event means there is one. */
  lemma ReplacingHasActive(cfg: Config, s: State, g: GroupKey)
    requires T.Inv(cfg, s) && g in s.running && s.running[g].Replacing?
    ensures s.running[g].active.Some?
  {
    hide RowsOk, NothingLost, QueuesOk, SeenOk, MembershipExact, HistoryOk, StoreOk, Coverage.Inv, AckSafety.Inv,
         FlushCache.Inv, ScoreExactness.Inv, Snapshot, UpdatedOk;
    assert RunningOk(cfg, s.h, s.t, s.store, g, s.running[g]);
  }

  /** What becomes of an EntityEvent that has a row: late, in a stored Event already, or in the active one. */
  predicate Handled(s: State, s': State, e: EntityId)
    requires e in s.t.entities
  {
    var g := s.t.entities[e].group;
    || e in s'.c.late
    || (e in s.t.member && s'.t == s.t)
    || (g in s'.store && e in s'.store[g].ids && e !in s'.t.member)
  }

  lemma MessageAcks(cfg: Config, s0: State, s: State, m: MsgId) returns (s': State)
    requires Reached(cfg, s0, s) && m in s.c.toAck
    ensures Reached(cfg, s0, s') && m !in s'.c.pending
    ensures s'.t == s.t && s'.store == s.store && s'.c.late == s.c.late && s'.c.sent == s.c.sent && s'.o == s.o
    ensures s'.c.dead == s.c.dead
  {
    hide Reached;
    s' := Go(cfg, s0, s, Consumer(Ack(m)));
  }

  lemma JobFinishes(cfg: Config, s0: State, s: State, m: MsgId) returns (s': State)
    requires Reached(cfg, s0, s) && Quiet(s) && Routable(s, m) && s.c.sent[m].value in s.t.entities
    ensures Reached(cfg, s0, s') && m !in s'.c.pending && s'.c.sent == s.c.sent
    ensures s'.c.dead == s.c.dead && s'.t.entities == s.t.entities && s'.o.overwritten == s.o.overwritten
    ensures Handled(s, s', s.c.sent[m].value)
  {
    hide Reached, T.Inv, Quiet, T.FoundTooOld;
    var e := s.c.sent[m].value;
    var g := s.t.entities[e].group;
    var s1 := JobLoads(cfg, s0, s, m);
    var s2 := JobDecides(cfg, s0, s1, g);
    if T.FoundMerged(s1, g) || T.FoundTooOld(cfg, s1, g, e) {
      s' := MessageAcks(cfg, s0, s2, m);
    } else {
      s' := JobStores(cfg, s0, s2, g);
    }
  }

  lemma UpsertingIsUnmapped(cfg: Config, s: State, g: GroupKey)
    requires T.Inv(cfg, s) && g in s.running && s.running[g].Upserting?
    ensures s.running[g].job.entity !in s.t.member
  {
    hide RowsOk, NothingLost, QueuesOk, SeenOk, HistoryOk, StoreOk, Coverage.Inv, AckSafety.Inv,
         FlushCache.Inv, ScoreExactness.Inv, Snapshot, MergeOrCreate, Fits, IsLate;
    assert RunningOk(cfg, s.h, s.t, s.store, g, s.running[g]);
  }

  /** A job that goes on can write its Event to the store and have its message ACKed. */
  lemma JobStores(cfg: Config, s0: State, s: State, g: GroupKey) returns (s': State)
    requires Reached(cfg, s0, s) && g in s.running && T.GoesOn(s, g, s.running[g].job)
    ensures Reached(cfg, s0, s') && s.running[g].job.msg !in s'.c.pending && s'.c.sent == s.c.sent
    ensures s'.c.dead == s.c.dead && s'.t.entities == s.t.entities && s'.o.overwritten == s.o.overwritten
    ensures g in s'.store && s.running[g].job.entity in s'.store[g].ids && s.running[g].job.entity !in s'.t.member
  {
    hide Reached, T.Inv;
    ReachedIsSound(cfg, s0, s);
    var s1 := s;
    if s.running[g].Replacing? {
      ReplacingHasActive(cfg, s, g);
      s1 := JobReplaces(cfg, s0, s, g);
    }
    ReachedIsSound(cfg, s0, s1);
    UpsertingIsUnmapped(cfg, s1, g);
    var s2 := GroupGoes(cfg, s0, s1, g, UpsertActive(true));
    s' := MessageAcks(cfg, s0, s2, s.running[g].job.msg);
  }

  // ----- What every run can still do -----

  /**
   From every state of every run, each active Event can be stored, announced and scored at its version, with its
   EntityEvents mapped to it; a score can stay behind only if this version had been announced before, and its
   scorer failed or an older score replaced a newer one.
   */
  lemma ActiveEventsCanBeFinished(cfg: Config, states: seq<State>, actions: seq<Action>, i: nat, g: GroupKey)
    returns (s': State)
    requires IsRun(cfg, states, actions) && i < |states| && g in states[i].store
    ensures CanReach(cfg, states[i], s') && IsPersisted(s', states[i].store[g])
    ensures SettledIfCanBe(states[i], s', states[i].store[g])
  {
    hide T.Inv, CanReach, IsPersisted, SettledIfCanBe;
    T.RunKeepsInv(cfg, states, actions, i);
    Start(cfg, states[i]);
    s' := ActiveFinishes(cfg, states[i], states[i], g);
  }

  /** The message is ACKed: dead-lettered, or its EntityEvent has no row, is late, or is in a stored Event. */
  predicate Concluded(s: State, m: MsgId) {
    && m in s.c.sent && m !in s.c.pending
    && (m in s.c.dead || (s.c.sent[m].Some? && IsConcluded(s, s.c.sent[m].value)))
  }

  predicate IsConcluded(s: State, e: EntityId) {
    e in s.c.missing || e in s.c.late || (e in s.t.member && s.t.member[e] in s.t.events)
  }

  /** The current version of the stored Event that has `e` is announced and scored. */
  predicate IsSettled(s: State, e: EntityId) {
    && e in s.t.member && s.t.member[e] in s.t.events && !s.t.events[s.t.member[e]].Behind()
    && Settled(s.o, s.t.member[e], s.t.events[s.t.member[e]].version)
  }

  /** The message's EntityEvent has a row and belongs to no stored Event. */
  predicate Unmapped(s: State, m: MsgId)
    requires m in s.c.sent
  {
    s.c.sent[m].Some? && s.c.sent[m].value in s.t.entities && s.c.sent[m].value !in s.t.member
  }

  lemma RowlessFinishes(cfg: Config, s0: State, s: State, m: MsgId) returns (s': State)
    requires Reached(cfg, s0, s) && Quiet(s) && m in s.c.sent
    requires s.c.sent[m].Some? ==> s.c.sent[m].value !in s.t.entities
    ensures Reached(cfg, s0, s') && Concluded(s', m) && s'.o.overwritten == s.o.overwritten
    ensures s'.t == s.t && (s.c.sent[m].Some? ==> s'.c.dead == s.c.dead)
  {
    hide Reached;
    if s.c.sent[m].Some? {
      var s1 := Go(cfg, s0, s, Consumer(RouteMissing(m)));
      s' := Go(cfg, s0, s1, Consumer(Ack(m)));
    } else {
      var s1 := Go(cfg, s0, s, Consumer(DeadLetter(m)));
      s' := Go(cfg, s0, s1, Consumer(AckDead(m)));
    }
  }

  lemma MembersAreStored(cfg: Config, s0: State, s: State, e: EntityId)
    requires Reached(cfg, s0, s) && e in s.t.member
    ensures s.t.member[e] in s.t.events
  {
    hide CanReach, Spanning, NothingLost, QueuesOk, SeenOk, AllRunningOk, StoreOk, RowsOk, Coverage.Inv, AckSafety.Inv,
         FlushCache.Inv, ScoreExactness.Inv;
  }

  /**
   From every state of every run, each message can be finished and ACKed, dead-lettered only if malformed; and if
   its EntityEvent has a row, was in no stored Event and is not found late, then with an Event that has it stored,
   announced and scored.
   */
  lemma MessagesCanBeFinished(cfg: Config, states: seq<State>, actions: seq<Action>, i: nat, m: MsgId)
    returns (s': State)
    requires IsRun(cfg, states, actions) && i < |states| && m in states[i].c.sent
    ensures CanReach(cfg, states[i], s') && Concluded(s', m)
    ensures states[i].c.sent[m].Some? ==> s'.c.dead == states[i].c.dead
    ensures Unmapped(states[i], m) && states[i].c.sent[m].value !in s'.c.late ==>
              IsSettled(s', states[i].c.sent[m].value)
  {
    hide T.Inv, CanReach, Quiet, Settled;
    var s := states[i];
    T.RunKeepsInv(cfg, states, actions, i);
    Start(cfg, s);
    var s1 := Restarts(cfg, s, s);
    if s.c.sent[m].None? || s.c.sent[m].value !in s.t.entities {
      s' := RowlessFinishes(cfg, s, s1, m);
    } else {
      var e := s.c.sent[m].value;
      var s2 := JobFinishes(cfg, s, s1, m);
      if e in s2.c.late {
        s' := s2;
      } else if e in s.t.member && s2.t == s.t {
        MembersAreStored(cfg, s, s2, e);
        s' := s2;
      } else {
        var g := s.t.entities[e].group;
        ReachedIsSound(cfg, s, s2);
        s' := ActiveFinishes(cfg, s, s2, g);
        if AnnouncedAlready(s2, s2.store[g]) { StoredActiveIsMapped(cfg, s2, g); }
      }
    }
  }
}
