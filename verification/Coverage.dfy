/**
 The transactional outbox and the scorers. In every reachable state each stored Event's current version
 is settled (scored, and that score announced), or still unannounced, or covered by an un-ACKed
 stream:event_aggregated message none of whose scorers read any other version; unless a scorer's update
 once replaced the Event's score by an older one.
 */
module Coverage {
  import opened Common
  import opened SlidingWindow
  import opened Tables
  import opened Pipeline

  type Rows = map<EventId, EventRow>

  /** A scorer in this phase has read no version of its Event other than `v`. */
  predicate ReadOnly(phase: Phase, v: int) {
    match phase
    case Reading => true
    case HasEvent(x) => x == v
    case HasMembers(x, _) => x == v
    case Checked(x, _) => x == v
    case Written(x) => x == v
    case Finished(x) => x == Some(v)
  }

  predicate ScoredAt(o: Scoring, ev: EventId, v: int) {
    ev in o.scores && o.scores[ev].version == v
  }

  /** `v` is scored, and that score was announced on stream:event_scored. */
  predicate Settled(o: Scoring, ev: EventId, v: int) {
    ScoredAt(o, ev, v) && Pending(ev, v) in o.announced
  }

  ghost predicate Covers(o: Scoring, n: MsgId, ev: EventId, v: int) {
    && n in o.unacked && o.unacked[n] == ev
    && forall k :: k in o.scorers && o.scorers[k].msg == n ==> ReadOnly(o.scorers[k].phase, v)
  }

  /** Settled or covered, unless an older score once replaced a newer one of the Event. */
  ghost predicate Covered(o: Scoring, ev: EventId, v: int) {
    ev in o.overwritten || Settled(o, ev, v) || exists n :: Covers(o, n, ev, v)
  }

  // ------------------------------------------------------------------------------- the invariant

  ghost predicate MarkersOk(events: Rows) {
    forall ev :: ev in events && events[ev].published.Some? ==> events[ev].published.value <= events[ev].version
  }

  ghost predicate MessagesOk(events: Rows, o: Scoring) {
    && (forall n :: n in o.unacked ==> n in o.sent && o.unacked[n] in events)
    && (forall k :: k in o.scorers ==>
          && o.scorers[k].msg in o.sent && o.scorers[k].event in events
          && (o.scorers[k].msg in o.unacked ==> o.unacked[o.scorers[k].msg] == o.scorers[k].event))
  }

  /**
   What a scorer has read is not ahead of the row, and what it has written is there unless superseded or overwritten.
   */
  predicate ScorerOk(row: EventRow, o: Scoring, w: Scorer) {
    match w.phase
    case Reading => true
    case HasEvent(v) => v <= row.version
    case HasMembers(v, _) => v <= row.version
    case Checked(v, _) => v <= row.version
    case Written(v) =>
      v <= row.version && (v == row.version && w.event !in o.overwritten ==> ScoredAt(o, w.event, v))
    case Finished(x) =>
      && x.Some? && x.value <= row.version
      && (x.value == row.version && w.event !in o.overwritten ==> Settled(o, w.event, x.value))
  }

  ghost predicate ScorersOk(events: Rows, o: Scoring) {
    forall k :: k in o.scorers ==>
      o.scorers[k].event in events && ScorerOk(events[o.scorers[k].event], o, o.scorers[k])
  }

  ghost predicate ScoresOk(events: Rows, o: Scoring) {
    forall ev :: ev in o.scores ==> ev in events && o.scores[ev].version <= events[ev].version
  }

  /** An owed announcement: marked already, or still on the party's list. */
  ghost predicate Owed(events: Rows, todo: seq<Pending>, d: Pending) {
    || MarkedAt(events, d.event, d.version)
    || exists j :: 0 <= j < |todo| && todo[j].event == d.event && d.version <= todo[j].version
  }

  ghost predicate TargetsOk(events: Rows, r: Announcer) {
    && (forall d :: d in r.targets ==> StoredAt(events, d.event, d.version))
    && (!r.Querying? ==> forall d :: d in r.targets ==> Owed(events, r.todo, d))
    && (!r.Querying? ==> forall d :: d in r.todo ==> StoredAt(events, d.event, d.version))
  }

  /** The version just published is settled or covered, unless the row has moved on. */
  ghost predicate HeadCovered(events: Rows, o: Scoring, r: Announcer) {
    r.Marking? ==>
      && r.todo != []
      && (r.todo[0].event in events && events[r.todo[0].event].version == r.todo[0].version ==>
            Covered(o, r.todo[0].event, r.todo[0].version))
  }

  ghost predicate AnnouncersOk(events: Rows, o: Scoring) {
    forall p :: p in o.announcers ==> TargetsOk(events, o.announcers[p]) && HeadCovered(events, o, o.announcers[p])
  }

  ghost predicate AllCovered(events: Rows, o: Scoring) {
    forall ev :: ev in events && !events[ev].Behind() ==> Covered(o, ev, events[ev].version)
  }

  ghost predicate Inv(events: Rows, o: Scoring) {
    && MarkersOk(events)
    && MessagesOk(events, o)
    && ScorersOk(events, o)
    && ScoresOk(events, o)
    && AnnouncersOk(events, o)
    && AllCovered(events, o)
  }

  // ------------------------------------------------------------------------------ persisting Events

  /** What a committed `persist_events` can do to the rows. */
  ghost predicate Rewrites(events: Rows, events': Rows) {
    && (forall ev :: ev in events ==> ev in events')
    && (forall ev :: ev in events' ==>
          if ev in events then
            events'[ev] == events[ev] ||
            (events[ev].version < events'[ev].version && events'[ev].published == events[ev].published)
          else events'[ev].published.None?)
  }

  lemma {:induction false} PersistRewrites(t: Tables, active: seq<Event>)
    ensures Rewrites(t.events, PersistAll(t, active).events)
  {
    if active == [] {
    } else {
      PersistRewrites(t, active[..|active| - 1]);
    }
  }

  lemma RewriteKeepsTargets(events: Rows, events': Rows, r: Announcer)
    requires Rewrites(events, events') && TargetsOk(events, r)
    ensures TargetsOk(events', r)
  {
    if !r.Querying? {
      forall d | d in r.targets ensures Owed(events', r.todo, d) {
        assert Owed(events, r.todo, d);
        assert MarkedAt(events, d.event, d.version) ==> MarkedAt(events', d.event, d.version);
      }
    }
  }

  lemma RewriteKeeps(events: Rows, events': Rows, o: Scoring)
    requires Rewrites(events, events') && Inv(events, o)
    ensures Inv(events', o)
  {
    hide Covered;
    forall p | p in o.announcers ensures TargetsOk(events', o.announcers[p])
      && HeadCovered(events', o, o.announcers[p]) {
      RewriteKeepsTargets(events, events', o.announcers[p]);
      var r := o.announcers[p];
      if r.Marking? { assert StoredAt(events, r.todo[0].event, r.todo[0].version) by { assert r.todo[0] in r.todo; } }
    }
  }

  // --------------------------------------------------------------------------------- the announcers

  /** Covering only looks at the messages, the scorers and the scores. */
  lemma CoveredIgnoresAnnouncers(o: Scoring, o': Scoring, ev: EventId, v: int)
    requires o'.unacked == o.unacked && o'.scorers == o.scorers && o'.scores == o.scores
    requires o'.announced == o.announced && o'.overwritten == o.overwritten
    requires Covered(o, ev, v)
    ensures Covered(o', ev, v)
  {
    if ev !in o.overwritten && !Settled(o, ev, v) {
      var n :| Covers(o, n, ev, v);
      assert Covers(o', n, ev, v);
    }
  }

  lemma ChangeAnnouncers(events: Rows, o: Scoring, announcers': map<Party, Announcer>)
    requires Inv(events, o)
    requires forall p :: p in announcers' ==>
               (p in o.announcers && announcers'[p] == o.announcers[p]) ||
               (TargetsOk(events, announcers'[p]) && HeadCovered(events, o, announcers'[p]))
    ensures Inv(events, o.(announcers := announcers'))
  {
    hide Covered;
    var o' := o.(announcers := announcers');
    forall ev, v | Covered(o, ev, v) ensures Covered(o', ev, v) {
      CoveredIgnoresAnnouncers(o, o', ev, v);
    }
  }

  /** A run of `_persist_and_publish` starts: its transaction stored every target. */
  lemma StartAnnouncing(events: Rows, o: Scoring, p: Party, targets: seq<Pending>)
    requires Inv(events, o)
    requires forall d :: d in targets ==> StoredAt(events, d.event, d.version)
    ensures Inv(events, o.(announcers := o.announcers[p := Querying(targets)]))
  {
    ChangeAnnouncers(events, o, o.announcers[p := Querying(targets)]);
  }

  lemma QueryKeeps(events: Rows, o: Scoring, p: Party, todo: seq<Pending>)
    requires Inv(events, o)
    requires p in o.announcers && o.announcers[p].Querying?
    requires Unpublished(events, EventsOf(o.announcers[p].targets), todo)
    ensures Inv(events, o.(announcers := o.announcers[p := Publishing(o.announcers[p].targets, todo)]))
  {
    var r := o.announcers[p];
    forall d | d in r.targets ensures Owed(events, todo, d) {
      var k :| 0 <= k < |r.targets| && r.targets[k] == d;
      assert d.event in EventsOf(r.targets);
      assert StoredAt(events, d.event, d.version);
      if events[d.event].Behind() {
        assert Pending(d.event, events[d.event].version) in todo;
      }
    }
    assert TargetsOk(events, r);
    ChangeAnnouncers(events, o, o.announcers[p := Publishing(r.targets, todo)]);
  }

  /** The published message covers whatever version the row has now: no scorer has it yet. */
  lemma NewMessageCovers(o: Scoring, n: MsgId, ev: EventId, v: int)
    requires n !in o.sent
    requires forall k :: k in o.scorers ==> o.scorers[k].msg in o.sent
    ensures Covered(o.(sent := o.sent + {n}, unacked := o.unacked[n := ev]), ev, v)
  {
    assert Covers(o.(sent := o.sent + {n}, unacked := o.unacked[n := ev]), n, ev, v);
  }

  lemma SendKeepsCovered(o: Scoring, n: MsgId, ev: EventId, b: EventId, v: int)
    requires n !in o.sent && (forall m :: m in o.unacked ==> m in o.sent)
    requires Covered(o, b, v)
    ensures Covered(o.(sent := o.sent + {n}, unacked := o.unacked[n := ev]), b, v)
  {
    if b !in o.overwritten && !Settled(o, b, v) {
      var m :| Covers(o, m, b, v);
      assert Covers(o.(sent := o.sent + {n}, unacked := o.unacked[n := ev]), m, b, v);
    }
  }

  lemma SendKeeps(events: Rows, o: Scoring, n: MsgId, ev: EventId)
    requires Inv(events, o) && n !in o.sent && ev in events
    ensures Inv(events, o.(sent := o.sent + {n}, unacked := o.unacked[n := ev]))
  {
    hide Covered;
    var o' := o.(sent := o.sent + {n}, unacked := o.unacked[n := ev]);
    forall b, v | Covered(o, b, v) ensures Covered(o', b, v) {
      SendKeepsCovered(o, n, ev, b, v);
    }
  }

  lemma PublishKeeps(events: Rows, o: Scoring, p: Party, n: MsgId, seen: bool)
    requires Inv(events, o) && n !in o.sent
    requires p in o.announcers && o.announcers[p].Publishing? && o.announcers[p].todo != []
    ensures var r := o.announcers[p];
            Inv(events, o.(sent := o.sent + {n}, unacked := o.unacked[n := r.todo[0].event],
                           announcers := o.announcers[p := if seen then Marking(r.targets, r.todo) else r]))
  {
    hide Covered;
    var r := o.announcers[p];
    assert TargetsOk(events, r);
    assert r.todo[0] in r.todo;
    SendKeeps(events, o, n, r.todo[0].event);
    NewMessageCovers(o, n, r.todo[0].event, r.todo[0].version);
    var sent := o.(sent := o.sent + {n}, unacked := o.unacked[n := r.todo[0].event]);
    assert o.announcers == o.announcers[p := r];
    ChangeAnnouncers(events, sent, o.announcers[p := if seen then Marking(r.targets, r.todo) else r]);
  }

  /** The marker update alone: the rows differ at most in a marker that moved forward to `d.version`. */
  lemma MarkKeepsRows(events: Rows, o: Scoring, d: Pending)
    requires Inv(events, o)
    requires StoredAt(events, d.event, d.version)
    requires events[d.event].version == d.version ==> Covered(o, d.event, d.version)
    ensures Inv(MarkPublished(events, d.event, d.version), o)
  {
    hide Covered;
    var events' := MarkPublished(events, d.event, d.version);
    forall p | p in o.announcers ensures TargetsOk(events', o.announcers[p])
      && HeadCovered(events', o, o.announcers[p]) {
      var r := o.announcers[p];
      if !r.Querying? {
        forall x | x in r.targets ensures Owed(events', r.todo, x) {
          assert Owed(events, r.todo, x);
          assert MarkedAt(events, x.event, x.version) ==> MarkedAt(events', x.event, x.version);
        }
      }
    }
  }

  lemma MarkKeeps(events: Rows, o: Scoring, p: Party)
    requires Inv(events, o)
    requires p in o.announcers && o.announcers[p].Marking? && o.announcers[p].todo != []
    ensures var r := o.announcers[p];
            Inv(MarkPublished(events, r.todo[0].event, r.todo[0].version),
                o.(announcers := o.announcers[p := Publishing(r.targets, r.todo[1..])]))
  {
    hide Covered;
    var r := o.announcers[p];
    var d := r.todo[0];
    assert d in r.todo;
    assert TargetsOk(events, r) && HeadCovered(events, o, r);
    MarkKeepsRows(events, o, d);
    var events' := MarkPublished(events, d.event, d.version);
    forall x | x in r.targets ensures Owed(events', r.todo[1..], x) {
      assert TargetsOk(events', r);
      if !MarkedAt(events', x.event, x.version) {
        var j :| 0 <= j < |r.todo| && r.todo[j].event == x.event && x.version <= r.todo[j].version;
        assert j != 0;
        assert r.todo[1..][j - 1] == r.todo[j];
      }
    }
    assert TargetsOk(events', Publishing(r.targets, r.todo[1..]));
    ChangeAnnouncers(events', o, o.announcers[p := Publishing(r.targets, r.todo[1..])]);
  }
}
