/** Every step of the pipeline keeps the coverage invariant. */
module CoverageSteps {
  import opened Common
  import opened SlidingWindow
  import opened Tables
  import opened Pipeline
  import opened Coverage

  // -------------------------------------------------------------------------------- the scorers

  /** A score of `ev` was written, of a version up to `v`, and marked if it replaced a newer one. */
  predicate Rescored(o: Scoring, o': Scoring, ev: EventId, v: int) {
    && ev in o'.scores && o'.scores[ev].version <= v && o'.scores == o.scores[ev := o'.scores[ev]]
    && (|| o'.overwritten == o.overwritten + {ev}
        || (o'.overwritten == o.overwritten && (ev in o.scores ==> o.scores[ev].version <= o'.scores[ev].version)))
  }

  /** `k` moves to `phase`, and perhaps records a score or its announcement. */
  ghost predicate Moves(events: Rows, o: Scoring, o': Scoring, k: nat, phase: Phase) {
    && k in o.scorers && o.scorers[k].event in events
    && var ev := o.scorers[k].event;
       && o' == o.(scorers := o.scorers[k := o.scorers[k].(phase := phase)], scores := o'.scores,
                   announced := o'.announced, overwritten := o'.overwritten)
       && ((o'.scores == o.scores && o'.overwritten == o.overwritten) || Rescored(o, o', ev, events[ev].version))
       && o.announced <= o'.announced
       && (ReadOnly(o.scorers[k].phase, events[ev].version) ==> ReadOnly(phase, events[ev].version))
  }

  lemma MoveKeepsSettled(events: Rows, o: Scoring, o': Scoring, k: nat, phase: Phase, ev: EventId)
    requires Moves(events, o, o', k, phase) && ev in events
    requires Settled(o, ev, events[ev].version)
    ensures ev in o'.overwritten || Settled(o', ev, events[ev].version)
  {
  }

  lemma MoveKeepsCovered(events: Rows, o: Scoring, o': Scoring, k: nat, phase: Phase, ev: EventId)
    requires Moves(events, o, o', k, phase) && ev in events && MessagesOk(events, o)
    requires Covered(o, ev, events[ev].version)
    ensures Covered(o', ev, events[ev].version)
  {
    if ev in o.overwritten {
    } else if Settled(o, ev, events[ev].version) {
      MoveKeepsSettled(events, o, o', k, phase, ev);
    } else {
      var n :| Covers(o, n, ev, events[ev].version);
      assert Covers(o', n, ev, events[ev].version);
    }
  }

  lemma MoveKeepsScorers(events: Rows, o: Scoring, o': Scoring, k: nat, phase: Phase)
    requires Moves(events, o, o', k, phase) && ScorersOk(events, o)
    requires ScorerOk(events[o.scorers[k].event], o', o'.scorers[k])
    ensures ScorersOk(events, o')
  {
  }

  /** Keeping the current versions covered keeps everything that rests on cover. */
  lemma CoverKept(events: Rows, o: Scoring, o': Scoring)
    requires AnnouncersOk(events, o) && AllCovered(events, o)
    requires o'.announcers == o.announcers
    requires forall ev :: ev in events && Covered(o, ev, events[ev].version) ==> Covered(o', ev, events[ev].version)
    ensures AnnouncersOk(events, o') && AllCovered(events, o')
  {
    hide Covered, TargetsOk;
    forall p | p in o'.announcers ensures HeadCovered(events, o', o'.announcers[p]) {
      assert HeadCovered(events, o, o.announcers[p]);
    }
  }

  lemma MoveKeeps(events: Rows, o: Scoring, o': Scoring, k: nat, phase: Phase)
    requires Inv(events, o) && Moves(events, o, o', k, phase)
    requires ScorerOk(events[o.scorers[k].event], o', o'.scorers[k])
    ensures Inv(events, o')
  {
    hide Covered, AnnouncersOk, AllCovered, ScorersOk;
    forall ev | ev in events && Covered(o, ev, events[ev].version) ensures Covered(o', ev, events[ev].version) {
      MoveKeepsCovered(events, o, o', k, phase, ev);
    }
    CoverKept(events, o, o');
    MoveKeepsScorers(events, o, o', k, phase);
  }

  lemma DeliverKeeps(events: Rows, o: Scoring, k: nat, n: MsgId)
    requires Inv(events, o) && k !in o.scorers && n in o.unacked
    ensures Inv(events, o.(scorers := o.scorers[k := Scorer(n, o.unacked[n], Reading)], delivered := o.delivered + {n}))
  {
    hide AnnouncersOk, AllCovered;
    var o' := o.(scorers := o.scorers[k := Scorer(n, o.unacked[n], Reading)], delivered := o.delivered + {n});
    forall ev | ev in events && Covered(o, ev, events[ev].version) ensures Covered(o', ev, events[ev].version) {
      var v := events[ev].version;
      if ev !in o.overwritten && !Settled(o, ev, v) {
        var m :| Covers(o, m, ev, v);
        assert Covers(o', m, ev, v);
      }
    }
    CoverKept(events, o, o');
  }

  lemma FailKeeps(events: Rows, o: Scoring, k: nat)
    requires Inv(events, o) && k in o.scorers
    ensures Inv(events, o.(scorers := Remove(o.scorers, k)))
  {
    hide AnnouncersOk, AllCovered;
    var o' := o.(scorers := Remove(o.scorers, k));
    forall ev | ev in events && Covered(o, ev, events[ev].version) ensures Covered(o', ev, events[ev].version) {
      var v := events[ev].version;
      if ev !in o.overwritten && !Settled(o, ev, v) {
        var m :| Covers(o, m, ev, v);
        assert Covers(o', m, ev, v);
      }
    }
    CoverKept(events, o, o');
  }

  /** The message is ACKed only when its Event's version is settled or superseded. */
  lemma AckKeeps(events: Rows, o: Scoring, k: nat)
    requires Inv(events, o) && k in o.scorers && o.scorers[k].phase.Finished?
    ensures Inv(events, o.(unacked := Remove(o.unacked, o.scorers[k].msg), scorers := Remove(o.scorers, k)))
  {
    hide AnnouncersOk, AllCovered;
    var w := o.scorers[k];
    assert ScorerOk(events[w.event], o, w);
    var o' := o.(unacked := Remove(o.unacked, w.msg), scorers := Remove(o.scorers, k));
    forall ev | ev in events && Covered(o, ev, events[ev].version) ensures Covered(o', ev, events[ev].version) {
      var v := events[ev].version;
      if ev !in o.overwritten && !Settled(o, ev, v) {
        var m :| Covers(o, m, ev, v);
        assert Covers(o', m, ev, v);
      }
    }
    CoverKept(events, o, o');
  }

  lemma ScoreStepKeeps(s: State, k: nat, a: ScoreAction)
    requires Inv(s.t.events, s.o) && CanScore(s, k, a)
    ensures Inv(s.t.events, Scored(s.t, s.o, k, a))
  {
    hide MarkersOk, MessagesOk, AnnouncersOk, AllCovered;
    var events, o := s.t.events, s.o;
    if a.Deliver? {
      DeliverKeeps(events, o, k, a.n);
    } else if a.AckScore? {
      AckKeeps(events, o, k);
    } else if a.ScorerFails? {
      FailKeeps(events, o, k);
    } else {
      assert ScorerOk(events[o.scorers[k].event], o, o.scorers[k]);
      var o' := Scored(s.t, o, k, a);
      MoveKeeps(events, o, o', k, o'.scorers[k].phase);
    }
  }

  // ----------------------------------------------------------------------------- the other layers

  lemma DropAnnouncer(events: Rows, o: Scoring, p: Party)
    requires Inv(events, o)
    ensures Inv(events, o.(announcers := Remove(o.announcers, p)))
  {
    ChangeAnnouncers(events, o, Remove(o.announcers, p));
  }

  lemma PersistAndAnnounceKeeps(t: Tables, o: Scoring, p: Party, active: seq<Event>)
    requires Inv(t.events, o)
    ensures Inv(PersistAll(t, active).events, o.(announcers := o.announcers[p := Querying(VersionsOf(active))]))
  {
    PersistRewrites(t, active);
    PersistAllAdvances(t, active);
    RewriteKeeps(t.events, PersistAll(t, active).events, o);
    StartAnnouncing(PersistAll(t, active).events, o, p, VersionsOf(active));
  }

  lemma GroupKeeps(cfg: Config, s: State, g: GroupKey, a: GroupAction)
    requires Inv(s.t.events, s.o) && CanGroup(s, g, a)
    ensures var s' := GroupStep(cfg, s, g, a); Inv(s'.t.events, s'.o)
  {
    hide Inv, PersistAll;
    match a
    case PersistReplaced => PersistAndAnnounceKeeps(s.t, s.o, OfGroup(g), [s.running[g].active.value]);
    case ReplacedAnnounced => DropAnnouncer(s.t.events, s.o, OfGroup(g));
    case JobFails => DropAnnouncer(s.t.events, s.o, OfGroup(g));
    case GroupCloses => DropAnnouncer(s.t.events, s.o, OfGroup(g));
    case _ =>
  }

  lemma FlushKeeps(s: State, f: FlushAction)
    requires Inv(s.t.events, s.o) && CanFlush(s, f)
    ensures var s' := FlushEffect(s, f); Inv(s'.t.events, s'.o)
  {
    hide Inv, PersistAll;
    match f
    case FlushPersists => PersistAndAnnounceKeeps(s.t, s.o, Flusher, Changed(s.lastFlushed, s.flush.seen));
    case FlushEnds => DropAnnouncer(s.t.events, s.o, Flusher);
    case FlushFails => DropAnnouncer(s.t.events, s.o, Flusher);
    case _ =>
  }

  lemma AnnounceKeeps(s: State, p: Party, a: AnnounceAction)
    requires Inv(s.t.events, s.o) && CanAnnounce(s, p, a)
    ensures var s' := AnnounceStep(s, p, a); Inv(s'.t.events, s'.o)
  {
    hide Inv, Unpublished, MarkPublished;
    match a
    case Query(todo) => QueryKeeps(s.t.events, s.o, p, todo);
    case Publish(n, seen) => PublishKeeps(s.t.events, s.o, p, n, seen);
    case Mark => MarkKeeps(s.t.events, s.o, p);
  }

  lemma StepKeeps(cfg: Config, s: State, a: Action)
    requires Inv(s.t.events, s.o) && Enabled(s, a)
    ensures var s' := Apply(cfg, s, a); Inv(s'.t.events, s'.o)
  {
    hide Inv, GroupStep, FlushEffect, AnnounceStep, Scored;
    match a
    case Upstream(_) =>
    case Consumer(_) =>
    case Group(g, ga) => GroupKeeps(cfg, s, g, ga);
    case FlushStep(f) => FlushKeeps(s, f);
    case Announce(p, an) => AnnounceKeeps(s, p, an);
    case ScoreStep(k, sa) => ScoreStepKeeps(s, k, sa);
    case Crash => ChangeAnnouncers(s.t.events, s.o, map[]);
  }
}
