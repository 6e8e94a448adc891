/** What every run of the aggregation and scoring layers guarantees. */
module PipelineTheorems {
  import opened Common
  import opened SlidingWindow
  import opened Tables
  import opened Pipeline
  import opened Ownership
  import opened Coverage
  import opened AckSafety
  import opened FlushCache
  import opened ScoreExactness
  import OwnershipSteps
  import CoverageSteps

  ghost predicate Inv(cfg: Config, s: State) {
    && Ownership.Inv(cfg, s)
    && Coverage.Inv(s.t.events, s.o)
    && AckSafety.Inv(s)
    && FlushCache.Inv(s)
    && ScoreExactness.Inv(s)
  }

  lemma InvInitially(cfg: Config)
    ensures Inv(cfg, Initial())
  {
  }

  lemma StepKeepsInv(cfg: Config, s: State, a: Action)
    requires Inv(cfg, s) && Enabled(s, a)
    ensures Inv(cfg, Apply(cfg, s, a))
  {
    hide Ownership.Inv, Coverage.Inv, AckSafety.Inv, FlushCache.Inv, ScoreExactness.Inv, Enabled, Apply;
    OwnershipSteps.StepKeeps(cfg, s, a);
    CoverageSteps.StepKeeps(cfg, s, a);
    AckSafety.StepKeeps(cfg, s, a);
    FlushCache.StepKeeps(cfg, s, a);
    ScoreExactness.StepKeeps(cfg, s, a);
  }

  lemma {:induction false} RunKeepsInv(cfg: Config, states: seq<State>, actions: seq<Action>, i: nat)
    requires IsRun(cfg, states, actions) && i < |states|
    ensures Inv(cfg, states[i])
  {
    hide Inv, Enabled, Apply;
    if i == 0 {
      InvInitially(cfg);
    } else {
      RunKeepsInv(cfg, states, actions, i - 1);
      StepKeepsInv(cfg, states[i - 1], actions[i - 1]);
    }
  }

  // ------------------------------------------------------------------------- outbox and scoring

  /** The current version of a stored Event is unannounced, scored and announced, or covered by a message. */
  ghost predicate ScoredOrOwed(s: State, ev: EventId)
    requires ev in s.t.events
  {
    || s.t.events[ev].Behind()
    || Settled(s.o, ev, s.t.events[ev].version)
    || exists n :: Covers(s.o, n, ev, s.t.events[ev].version)
  }

  /** So it is in every reachable state, of every Event whose score no older one has replaced. */
  lemma EveryVersionScoredOrOwed(cfg: Config, states: seq<State>, actions: seq<Action>, i: nat, ev: EventId)
    requires IsRun(cfg, states, actions) && i < |states| && ev in states[i].t.events
    ensures ev in states[i].o.overwritten || ScoredOrOwed(states[i], ev)
  {
    hide IsRun, Ownership.Inv, AckSafety.Inv, FlushCache.Inv, ScoreExactness.Inv;
    RunKeepsInv(cfg, states, actions, i);
    InvCovers(cfg, states[i], ev);
  }

  lemma InvCovers(cfg: Config, s: State, ev: EventId)
    requires Inv(cfg, s) && ev in s.t.events
    ensures ev in s.o.overwritten || ScoredOrOwed(s, ev)
  {
    hide Ownership.Inv, AckSafety.Inv, FlushCache.Inv, ScoreExactness.Inv, Settled, Covers, MessagesOk, ScorersOk,
         AnnouncersOk;
  }

  /** Every delivered message that is still un-ACKed is in some scorer's hands. */
  ghost predicate DeliveredAreHeld(o: Scoring) {
    && o.delivered <= o.sent
    && forall n :: n in o.unacked && n in o.delivered ==> IsHeld(o, n)
  }

  ghost predicate IsHeld(o: Scoring, n: MsgId) {
    exists k :: k in o.scorers && o.scorers[k].msg == n
  }

  lemma StepKeepsHeld(cfg: Config, s: State, a: Action)
    requires Enabled(s, a) && DeliveredAreHeld(s.o) && MessagesOk(s.t.events, s.o)
    requires !(a.ScoreStep? && a.sa.ScorerFails?)
    ensures DeliveredAreHeld(Apply(cfg, s, a).o)
  {
    var o' := Apply(cfg, s, a).o;
    if a.ScoreStep? {
      hide MembersOf;
      forall n | n in o'.unacked && n in o'.delivered ensures IsHeld(o', n) {
        if n in s.o.delivered {
          var k :| k in s.o.scorers && s.o.scorers[k].msg == n;
          assert k in o'.scorers && o'.scorers[k].msg == n;
        } else {
          assert a.k in o'.scorers && o'.scorers[a.k].msg == n;
        }
      }
    } else {
      hide Apply, Enabled;
      OthersKeepScores(cfg, s, a);
      forall n | n in o'.unacked && n in o'.delivered ensures IsHeld(o', n) {
        var k :| k in s.o.scorers && s.o.scorers[k].msg == n;
        assert k in o'.scorers;
      }
    }
  }

  /** While no scorer fails, a covering message is still to be delivered, or in the hands of a live scorer. */
  lemma {:induction false} CoverIsLiveWithoutFailures(cfg: Config, states: seq<State>, actions: seq<Action>, i: nat)
    requires IsRun(cfg, states, actions) && i < |states|
    requires forall j :: 0 <= j < i ==> !(actions[j].ScoreStep? && actions[j].sa.ScorerFails?)
    ensures DeliveredAreHeld(states[i].o)
    ensures forall n, ev, v :: Covers(states[i].o, n, ev, v) ==> n !in states[i].o.delivered || IsHeld(states[i].o, n)
  {
    hide Enabled, Apply, Inv, MessagesOk, IsHeld;
    if i == 0 {
      assert states[0] == Initial();
    } else {
      CoverIsLiveWithoutFailures(cfg, states, actions, i - 1);
      RunKeepsInv(cfg, states, actions, i - 1);
      InvMessages(cfg, states[i - 1]);
      StepKeepsHeld(cfg, states[i - 1], actions[i - 1]);
    }
  }

  lemma InvMessages(cfg: Config, s: State)
    requires Inv(cfg, s)
    ensures MessagesOk(s.t.events, s.o)
  {
    hide Ownership.Inv, AckSafety.Inv, FlushCache.Inv, ScoreExactness.Inv;
  }

  /** A score never runs ahead of its Event, and was computed over exactly the version it is stamped with. */
  lemma ScoresMatchAVersion(cfg: Config, states: seq<State>, actions: seq<Action>, i: nat, ev: EventId)
    requires IsRun(cfg, states, actions) && i < |states| && ev in states[i].o.scores
    ensures var s := states[i]; var score := s.o.scores[ev];
            && ev in s.t.events && score.version <= s.t.events[ev].version
            && (forall e :: e in score.members <==> Owns(s.h, ev, score.version, e))
  {
    RunKeepsInv(cfg, states, actions, i);
    assert Exactly(states[i].h, ev, states[i].o.scores[ev].version, states[i].o.scores[ev].members);
  }

  /** Scores only move to newer versions, and only Events whose score did not are added to `overwritten`. */
  ghost predicate ScoresAdvance(o: Scoring, o': Scoring) {
    && o.overwritten <= o'.overwritten
    && forall ev :: ev in o.scores ==>
         && ev in o'.scores
         && (ev !in o'.overwritten ==> o.scores[ev].version <= o'.scores[ev].version)
         && (ev in o'.overwritten && ev !in o.overwritten ==> o'.scores[ev].version < o.scores[ev].version)
  }

  predicate SameScores(o: Scoring, o': Scoring) {
    && o'.scores == o.scores && o'.overwritten == o.overwritten && o'.scorers == o.scorers
    && o'.delivered == o.delivered && o.sent <= o'.sent
    && forall n :: n in o'.unacked ==> n in o.unacked || n !in o.sent
  }

  // What each layer's steps leave alone.

  lemma UpstreamFrame(s: State, u: UpstreamAction)
    requires CanUpstream(s, u)
    ensures var s' := UpstreamStep(s, u);
            s'.store == s.store && s'.h == s.h && s'.o == s.o && RowsExtend(s.t, s'.t)
  {
  }

  lemma ConsumerFrame(s: State, c: ConsumerAction)
    requires CanConsume(s, c)
    ensures var s' := ConsumerStep(s, c);
            && s'.store == s.store && s'.h == s.h && s'.o == s.o && s'.t == s.t && s'.c.sent == s.c.sent
            && s'.c.late == s.c.late
            && (s'.c.missing != s.c.missing ==>
                  c.RouteMissing? && Routable(s, c.m) && s.c.sent[c.m].value !in s.t.entities)
  {
  }

  lemma AnnounceFrame(s: State, p: Party, a: AnnounceAction)
    requires CanAnnounce(s, p, a)
    ensures var s' := AnnounceStep(s, p, a);
            s'.store == s.store && s'.h == s.h && s'.c == s.c && SameScores(s.o, s'.o) && s'.t.entities == s.t.entities
  {
    hide Unpublished, MarkPublished;
  }

  lemma CrashFrame(s: State)
    ensures var s' := AfterCrash(s);
            && s'.store == s.store && s'.h == s.h && s'.t == s.t && SameScores(s.o, s'.o)
            && s'.c.sent == s.c.sent && s'.c.missing == s.c.missing && s'.c.late == s.c.late
  {
  }

  lemma GroupFrame(cfg: Config, s: State, g: GroupKey, a: GroupAction)
    requires CanGroup(s, g, a)
    ensures var s' := GroupStep(cfg, s, g, a);
            && SameScores(s.o, s'.o) && s'.t.entities == s.t.entities
            && s'.c.sent == s.c.sent && s'.c.missing == s.c.missing && s'.c.late <= s.c.late + s.t.entities.Keys
  {
    hide PersistAll, VerdictOf, CanDecide;
    if a.PersistReplaced? { PersistAllAdvances(s.t, [s.running[g].active.value]); }
    if a.Decide? { DecideFrame(cfg, s, g, a.newId, a.now); }
  }

  /** Only a stored EntityEvent is skipped as late. */
  lemma DecideFrame(cfg: Config, s: State, g: GroupKey, newId: EventId, now: int)
    requires CanDecide(s, g, newId, now)
    ensures DoDecide(cfg, s, g, newId, now).c.late <= s.c.late + s.t.entities.Keys
  {
    hide VerdictOf, AfterVerdict;
    assert s.running[g].job.entity in s.t.entities.Keys;
  }

  /** Only a group's own upsert, and its expiry, change what is stored for it. */
  lemma GroupStoreFrame(cfg: Config, s: State, g: GroupKey, a: GroupAction, x: GroupKey)
    requires CanGroup(s, g, a)
    requires var s' := GroupStep(cfg, s, g, a); x in s.store && x in s'.store && s'.store[x] != s.store[x]
    ensures x == g && a.UpsertActive? && GroupStep(cfg, s, g, a).store[x] == s.running[g].updated
  {
    hide PersistAll, VerdictOf, CanDecide;
  }

  lemma FlushFrame(s: State, f: FlushAction)
    requires CanFlush(s, f)
    ensures var s' := FlushEffect(s, f);
            s'.store == s.store && s'.h == s.h && s'.c == s.c && SameScores(s.o, s'.o) && s'.t.entities == s.t.entities
  {
    hide PersistAll, Changed, FlushedVersions;
    if f.FlushPersists? { PersistAllAdvances(s.t, Changed(s.lastFlushed, s.flush.seen)); }
  }

  /** Only scorers touch event_scores. */
  lemma OthersKeepScores(cfg: Config, s: State, a: Action)
    requires Enabled(s, a) && !a.ScoreStep?
    ensures SameScores(s.o, Apply(cfg, s, a).o)
  {
    hide PersistAll, VerdictOf, UpstreamStep, ConsumerStep, GroupStep, FlushEffect, AnnounceStep, AfterCrash;
    hide CanUpstream, CanConsume, CanGroup, CanFlush, CanAnnounce;
    match a
    case Upstream(u) => UpstreamFrame(s, u);
    case Consumer(c) => ConsumerFrame(s, c);
    case Group(g, ga) => GroupFrame(cfg, s, g, ga);
    case FlushStep(f) => FlushFrame(s, f);
    case Announce(p, an) => AnnounceFrame(s, p, an);
    case ScoreStep(_, _) =>
    case Crash => CrashFrame(s);
  }

  lemma StepAdvancesScores(cfg: Config, s: State, a: Action)
    requires Enabled(s, a)
    ensures ScoresAdvance(s.o, Apply(cfg, s, a).o)
    ensures forall ev :: ev in Apply(cfg, s, a).o.overwritten && ev !in s.o.overwritten ==> ev in s.o.scores
  {
    if a.ScoreStep? {
      hide PersistAll, MembersOf;
    } else {
      hide Apply, Enabled;
      OthersKeepScores(cfg, s, a);
    }
  }

  /** The scored version of an Event never decreases and never disappears while no older score replaces its score. */
  lemma {:induction false} ScoresNeverGoBack(cfg: Config, states: seq<State>, actions: seq<Action>,
                                             i: nat, j: nat, ev: EventId)
    requires IsRun(cfg, states, actions) && i <= j < |states|
    ensures states[i].o.overwritten <= states[j].o.overwritten
    ensures ev in states[i].o.scores ==> ev in states[j].o.scores
    ensures ev in states[i].o.scores && ev !in states[j].o.overwritten ==>
              states[i].o.scores[ev].version <= states[j].o.scores[ev].version
  {
    hide Enabled, Apply;
    if i == j {
    } else {
      ScoresNeverGoBack(cfg, states, actions, i, j - 1, ev);
      StepAdvancesScores(cfg, states[j - 1], actions[j - 1]);
    }
  }

  /** The version scored for the Event is lower at some later moment. */
  ghost predicate GoesBack(states: seq<State>, ev: EventId) {
    exists i, j :: 0 <= i < j < |states| && BackBetween(states, i, j, ev)
  }

  predicate BackBetween(states: seq<State>, i: nat, j: nat, ev: EventId)
    requires i < |states| && j < |states|
  {
    ev in states[i].o.scores && ev in states[j].o.scores
    && states[j].o.scores[ev].version < states[i].o.scores[ev].version
  }

  /** A run takes an Event's scored version back exactly if an older score replaced a newer one of it. */
  lemma ScoresGoBackExactlyIfOverwritten(cfg: Config, states: seq<State>, actions: seq<Action>, ev: EventId)
    requires IsRun(cfg, states, actions)
    ensures GoesBack(states, ev) <==> ev in states[|actions|].o.overwritten
  {
    hide Enabled, Apply;
    if GoesBack(states, ev) {
      var i: nat, j: nat :| i < j < |states| && BackBetween(states, i, j, ev);
      ScoresNeverGoBack(cfg, states, actions, i, j, ev);
      ScoresNeverGoBack(cfg, states, actions, j, |actions|, ev);
    }
    if ev in states[|actions|].o.overwritten {
      OverwrittenWentBack(cfg, states, actions, |actions|, ev);
    }
  }

  lemma {:induction false} OverwrittenWentBack(cfg: Config, states: seq<State>, actions: seq<Action>, i: nat,
                                               ev: EventId)
    requires IsRun(cfg, states, actions) && i < |states| && ev in states[i].o.overwritten
    ensures GoesBack(states, ev)
  {
    hide Enabled, Apply;
    if i == 0 {
    } else if ev in states[i - 1].o.overwritten {
      OverwrittenWentBack(cfg, states, actions, i - 1, ev);
    } else {
      StepAdvancesScores(cfg, states[i - 1], actions[i - 1]);
      assert BackBetween(states, i - 1, i, ev);
    }
  }

  // --------------------------------------------------------------------------- one Event for ever

  /** Some copy of Event `ev` anywhere lists `e`: in Postgres, in Redis, in a flush, or in a running job. */
  ghost predicate Lists(s: State, ev: EventId, e: EntityId) {
    || (e in s.t.member && s.t.member[e] == ev)
    || (exists g :: g in s.store && s.store[g].eventId == ev && e in s.store[g].ids)
    || (exists a :: a in Seen(s.flush) && a.eventId == ev && e in a.ids)
    || (exists g :: g in s.running && RunningLists(s.running[g], ev, e))
  }

  predicate RunningLists(r: Running, ev: EventId, e: EntityId) {
    !r.Started? && r.active.Some? && r.active.value.eventId == ev && e in r.active.value.ids
  }

  /** A running merge loaded `a`, and may persist it as the Event to replace. */
  predicate HasLoaded(r: Running, a: Event) {
    !r.Started? && r.active == Some(a)
  }

  lemma LoadedIsSnapshot(cfg: Config, s: State, g: GroupKey, a: Event)
    requires Ownership.Inv(cfg, s) && g in s.running && HasLoaded(s.running[g], a)
    ensures Snapshot(cfg, s.h, s.t.entities, a)
  {
    hide Snapshot, RowsOk, NothingLost, QueuesOk, SeenOk, StoreOk, HistoryOk, MembershipExact;
    assert RunningOk(cfg, s.h, s.t, s.store, g, s.running[g]);
  }

  lemma ListedIsOwned(cfg: Config, s: State, ev: EventId, e: EntityId)
    requires Ownership.Inv(cfg, s) && Lists(s, ev, e)
    ensures e in s.h.owner && s.h.owner[e].event == ev
  {
    hide Spanning, RowsOk, NothingLost, QueuesOk, UpdatedOk;
    if g :| g in s.running && RunningLists(s.running[g], ev, e) {
      assert RunningOk(cfg, s.h, s.t, s.store, g, s.running[g]);
      assert Owns(s.h, ev, s.running[g].active.value.version, e);
    } else if g :| g in s.store && s.store[g].eventId == ev && e in s.store[g].ids {
      assert Owns(s.h, ev, s.store[g].version, e);
    } else if a :| a in Seen(s.flush) && a.eventId == ev && e in a.ids {
      assert Owns(s.h, ev, a.version, e);
    }
  }

  /** Who owns an EntityEvent, an Event's founder, and its group never change. */
  ghost predicate HistoryExtends(h: History, h': History) {
    && (forall e :: e in h.owner ==> e in h'.owner && h'.owner[e] == h.owner[e])
    && (forall ev :: ev in h.latest ==> ev in h'.latest)
    && (forall ev :: ev in h.latest && ev in h.founder ==> ev in h'.founder && h'.founder[ev] == h.founder[ev])
  }

  /** Rows of entity_events are only ever added. */
  ghost predicate RowsExtend(t: Tables, t': Tables) {
    forall e :: e in t.entities ==> e in t'.entities && t'.entities[e] == t.entities[e]
  }

  lemma GroupExtends(cfg: Config, s: State, g: GroupKey, a: GroupAction)
    requires Ownership.Inv(cfg, s) && CanGroup(s, g, a)
    ensures var s' := GroupStep(cfg, s, g, a); HistoryExtends(s.h, s'.h) && RowsExtend(s.t, s'.t)
  {
    hide Ownership.Inv, PersistAll, VerdictOf, CanDecide;
    if a.UpsertActive? { OwnershipSteps.UpsertMerges(cfg, s, g); }
    if a.PersistReplaced? { PersistAllAdvances(s.t, [s.running[g].active.value]); }
  }

  lemma StepExtendsHistory(cfg: Config, s: State, a: Action)
    requires Ownership.Inv(cfg, s) && Enabled(s, a)
    ensures var s' := Apply(cfg, s, a); HistoryExtends(s.h, s'.h) && RowsExtend(s.t, s'.t)
  {
    hide Ownership.Inv, UpstreamStep, ConsumerStep, GroupStep, FlushEffect, AnnounceStep, AfterCrash, Scored;
    hide CanUpstream, CanConsume, CanGroup, CanFlush, CanAnnounce, CanScore;
    match a
    case Upstream(u) => UpstreamFrame(s, u);
    case Consumer(c) => ConsumerFrame(s, c);
    case Group(g, ga) => GroupExtends(cfg, s, g, ga);
    case FlushStep(f) => FlushFrame(s, f);
    case Announce(p, an) => AnnounceFrame(s, p, an);
    case ScoreStep(_, _) =>
    case Crash => CrashFrame(s);
  }

  lemma {:induction false} RunExtendsHistory(cfg: Config, states: seq<State>, actions: seq<Action>, i: nat, j: nat)
    requires IsRun(cfg, states, actions) && i <= j < |states|
    ensures HistoryExtends(states[i].h, states[j].h) && RowsExtend(states[i].t, states[j].t)
  {
    hide Ownership.Inv, Enabled, Apply;
    if i == j {
    } else {
      RunExtendsHistory(cfg, states, actions, i, j - 1);
      RunKeepsInv(cfg, states, actions, j - 1);
      RunKeepsInv(cfg, states, actions, i);
      StepExtendsHistory(cfg, states[j - 1], actions[j - 1]);
    }
  }

  /**
   Over a whole run, every copy of an Event that ever lists an EntityEvent is a copy of the same Event:
   redeliveries, failures, stale flush snapshots, replacements, expiries and crashes included.
   */
  lemma OneEventForEver(cfg: Config, states: seq<State>, actions: seq<Action>, i: nat, j: nat,
                        e: EntityId, ev: EventId, ev': EventId)
    requires IsRun(cfg, states, actions) && i <= j < |states|
    requires Lists(states[i], ev, e) && Lists(states[j], ev', e)
    ensures ev == ev'
  {
    hide Lists, Enabled, Apply, Coverage.Inv, AckSafety.Inv, FlushCache.Inv, ScoreExactness.Inv, Ownership.Inv;
    RunKeepsInv(cfg, states, actions, i);
    RunKeepsInv(cfg, states, actions, j);
    ListedIsOwned(cfg, states[i], ev, e);
    ListedIsOwned(cfg, states[j], ev', e);
    RunExtendsHistory(cfg, states, actions, i, j);
  }

  /** ... and a copy lists each EntityEvent once, and never one that event_entity_map gives to another Event. */
  lemma CopiesNeverConflict(cfg: Config, states: seq<State>, actions: seq<Action>, i: nat, a: Event)
    requires IsRun(cfg, states, actions) && i < |states|
    requires || a in Seen(states[i].flush)
             || (exists g :: g in states[i].store && states[i].store[g] == a)
             || (exists g :: g in states[i].running && HasLoaded(states[i].running[g], a))
    ensures Distinct(a.ids)
    ensures forall e :: e in a.ids && e in states[i].t.member ==> states[i].t.member[e] == a.eventId
  {
    hide Spanning, RowsOk, NothingLost, QueuesOk, AllRunningOk, Coverage.Inv, AckSafety.Inv, FlushCache.Inv,
         ScoreExactness.Inv;
    var s := states[i];
    RunKeepsInv(cfg, states, actions, i);
    if g :| g in s.running && HasLoaded(s.running[g], a) {
      LoadedIsSnapshot(cfg, s, g, a);
    }
    assert Snapshot(cfg, s.h, s.t.entities, a);
    forall e | e in a.ids && e in s.t.member ensures s.t.member[e] == a.eventId {
      assert Owns(s.h, a.eventId, a.version, e);
    }
  }

  // -------------------------------------------------------------------------------- ACKs and losses

  /** A message is off the pending list only if it was dead-lettered or its EntityEvent needs nothing more. */
  lemma AckedOnlyWhenFinal(cfg: Config, states: seq<State>, actions: seq<Action>, i: nat, m: MsgId)
    requires IsRun(cfg, states, actions) && i < |states|
    requires m in states[i].c.sent && m !in states[i].c.pending
    ensures var s := states[i];
            || m in s.c.dead
            || (&& s.c.sent[m].Some?
                && var e := s.c.sent[m].value;
                   e in s.c.missing || e in s.c.late || Kept(s, e))
  {
    hide Ownership.Inv, Coverage.Inv, FlushCache.Inv, ScoreExactness.Inv, Kept;
    var s := states[i];
    RunKeepsInv(cfg, states, actions, i);
    if m !in s.c.dead && s.c.sent[m].value in s.h.owner {
      OwnedIsKept(cfg, s, s.c.sent[m].value);
    }
  }

  /** The job of group `g` read an active Event whose latest is more than a window after its own EntityEvent `e`. */
  predicate FoundTooOld(cfg: Config, s: State, g: GroupKey, e: EntityId) {
    && g in s.running && s.running[g].Loaded? && s.running[g].job.entity == e
    && s.running[g].active.Some?
    && e in s.t.entities && s.t.entities[e].IsPersistent()
    && s.running[g].active.value.lastSeen - At(s.t.entities, e) > cfg.windowHours * HOUR
  }

  /** The job of group `g` read an active Event, or a mapping, that already has its EntityEvent. */
  predicate FoundMerged(s: State, g: GroupKey)
    requires g in s.running && s.running[g].Loaded?
  {
    var r := s.running[g];
    r.job.entity in s.t.member || (r.active.Some? && r.job.entity in r.active.value.ids)
  }

  /** Once a group's job has decided, it is either done with its message or on its way to the store. */
  predicate GoesOn(s: State, g: GroupKey, j: Job) {
    && g in s.running && (s.running[g].Replacing? || s.running[g].Upserting?)
    && s.running[g].job == j && j.entity in s.running[g].updated.ids
  }

  /** What the decision of group `g`'s job makes of the state, by what the job has found. */
  predicate Decided(cfg: Config, s: State, s': State, g: GroupKey)
    requires g in s.running && s.running[g].Loaded?
  {
    var m, e := s.running[g].job.msg, s.running[g].job.entity;
    var ends := FoundMerged(s, g) || FoundTooOld(cfg, s, g, e);
    && s'.c.toAck == (if ends then s.c.toAck + {m} else s.c.toAck)
    && s'.c.late == (if ends && !FoundMerged(s, g) then s.c.late + {e} else s.c.late)
    && (ends ==> g !in s'.running)
    && (!ends ==> GoesOn(s', g, s.running[g].job))
  }

  /**
   Every decision of every run: an EntityEvent already in an Event is done, one found too old is recorded as late
   and done, and every other one goes on, in an Event that lists it.
   */
  lemma DecisionIsExact(cfg: Config, states: seq<State>, actions: seq<Action>, i: nat, g: GroupKey, newId: EventId,
                        now: int)
    requires IsRun(cfg, states, actions) && i < |actions| && actions[i] == Group(g, Decide(newId, now))
    ensures g in states[i].running && states[i].running[g].Loaded? && Decided(cfg, states[i], states[i + 1], g)
  {
    hide Inv, DoDecide, Decided;
    assert Enabled(states[i], actions[i]) && states[i + 1] == Apply(cfg, states[i], actions[i]);
    RunKeepsInv(cfg, states, actions, i);
    DecideIsExact(cfg, states[i], g, newId, now);
  }

  lemma DecideIsExact(cfg: Config, s: State, g: GroupKey, newId: EventId, now: int)
    requires Inv(cfg, s) && CanDecide(s, g, newId, now)
    ensures Decided(cfg, s, DoDecide(cfg, s, g, newId, now), g)
  {
    hide Inv, MergeOrCreate;
    JobIsStored(cfg, s, g);
    JobMerges(cfg, s, g, newId, now);
  }

  lemma JobIsStored(cfg: Config, s: State, g: GroupKey)
    requires Inv(cfg, s) && g in s.running && s.running[g].Loaded?
    ensures var r := s.running[g];
            && WellStored(s.t.entities) && r.job.entity in s.t.entities
            && s.t.entities[r.job.entity].id == Some(r.job.entity)
            && (r.active.Some? ==> Spanning(cfg, s.t.entities, r.active.value))
  {
    hide RowsOk, NothingLost, QueuesOk, SeenOk, MembershipExact, HistoryOk, StoreOk, Coverage.Inv, AckSafety.Inv,
         FlushCache.Inv, ScoreExactness.Inv, Spanning, UpdatedOk;
    assert RunningOk(cfg, s.h, s.t, s.store, g, s.running[g]);
  }

  /** What a job merges lists its EntityEvent. */
  lemma JobMerges(cfg: Config, s: State, g: GroupKey, newId: EventId, now: int)
    requires Inv(cfg, s) && g in s.running && s.running[g].Loaded?
    ensures var r := s.running[g];
            && r.job.entity in s.t.entities
            && var u := MergeOrCreate(cfg, r.active, s.t.entities[r.job.entity], newId, now);
               u.Ok? && r.job.entity in u.value.ids
  {
    hide Inv, Spanning, Fits, WellStored;
    JobIsStored(cfg, s, g);
    var r := s.running[g];
    MergeKeepsSpan(cfg, s.t.entities, r.active, r.job.entity, newId, now);
    if r.active.Some? {
      ExtendedLists(r.active.value.ids, r.job.entity);
    }
  }

  lemma ExtendedLists(ids: seq<EntityId>, e: EntityId)
    ensures e in ids + [e]
  {
  }

  /** At this step a job found `e` in no Event and more than a window too old. */
  ghost predicate SkipsAsLate(cfg: Config, s: State, a: Action, e: EntityId) {
    && a.Group? && a.ga.Decide?
    && FoundTooOld(cfg, s, a.g, e) && !FoundMerged(s, a.g)
  }

  /** An EntityEvent is recorded as late exactly at the steps that find it too old. */
  lemma LateExactlyWhenTooOld(cfg: Config, states: seq<State>, actions: seq<Action>, i: nat, e: EntityId)
    requires IsRun(cfg, states, actions) && i < |actions|
    ensures e in states[i + 1].c.late <==> e in states[i].c.late || SkipsAsLate(cfg, states[i], actions[i], e)
  {
    hide Enabled, Apply, FoundTooOld, FoundMerged;
    var a := actions[i];
    if a.Group? && a.ga.Decide? {
      DecisionIsExact(cfg, states, actions, i, a.g, a.ga.newId, a.ga.now);
      TooOldIsTheJobs(cfg, states[i], a.g, e);
    } else {
      OnlyDecisionsSkip(cfg, states[i], a);
    }
  }

  lemma TooOldIsTheJobs(cfg: Config, s: State, g: GroupKey, e: EntityId)
    requires g in s.running
    ensures FoundTooOld(cfg, s, g, e) ==> e == s.running[g].job.entity
  {
  }

  lemma OnlyDecisionsSkip(cfg: Config, s: State, a: Action)
    requires Enabled(s, a) && !(a.Group? && a.ga.Decide?)
    ensures Apply(cfg, s, a).c.late == s.c.late
  {
    hide PersistAll, VerdictOf, CanDecide, ConsumerStep, FlushEffect, AnnounceStep, AfterCrash, Scored, DoDecide;
    hide CanConsume, CanFlush, CanAnnounce, CanScore, Done, StoredAt;
    match a
    case Upstream(u) =>
    case Consumer(c) => ConsumerFrame(s, c);
    case Group(g, ga) =>
    case FlushStep(f) => FlushFrame(s, f);
    case Announce(p, an) => AnnounceFrame(s, p, an);
    case ScoreStep(_, _) =>
    case Crash => CrashFrame(s);
  }

  /** In every run, what counts as skipped was too old for an active Event that some job of its group had read. */
  lemma {:induction false} SkippedOnlyIfTooOld(cfg: Config, states: seq<State>, actions: seq<Action>, i: nat,
                                               e: EntityId)
    requires IsRun(cfg, states, actions) && i < |states| && e in states[i].c.late
    ensures exists j :: 0 <= j < i && SkipsAsLate(cfg, states[j], actions[j], e)
  {
    hide Enabled, Apply, SkipsAsLate;
    if i == 0 {
    } else {
      LateExactlyWhenTooOld(cfg, states, actions, i - 1, e);
      if e in states[i - 1].c.late {
        SkippedOnlyIfTooOld(cfg, states, actions, i - 1, e);
      }
    }
  }

  /** A replaced active Event is persisted, mapped and announced before its slot is overwritten. */
  lemma ReplacedIsPersistedFirst(cfg: Config, states: seq<State>, actions: seq<Action>, i: nat, g: GroupKey)
    requires IsRun(cfg, states, actions) && i < |actions|
    requires g in states[i].store && g in states[i + 1].store
    requires states[i].store[g].eventId != states[i + 1].store[g].eventId
    ensures var a := states[i].store[g]; var t := states[i].t;
            && FlushedAt(t.events, a.eventId, a.version)
            && (forall e :: e in a.ids ==> e in t.member && t.member[e] == a.eventId)
  {
    hide Inv, Enabled, Apply, FlushedAt;
    RunKeepsInv(cfg, states, actions, i);
    OnlyUpsertsReplace(cfg, states[i], actions[i], g);
    OverwrittenIsFlushed(cfg, states[i], g);
  }

  lemma OnlyUpsertsReplace(cfg: Config, s: State, a: Action, g: GroupKey)
    requires Enabled(s, a) && g in s.store && g in Apply(cfg, s, a).store
    requires s.store[g] != Apply(cfg, s, a).store[g]
    ensures g in s.running && s.running[g].Upserting? && Apply(cfg, s, a).store[g] == s.running[g].updated
  {
    hide UpstreamStep, ConsumerStep, GroupStep, FlushEffect, AnnounceStep, AfterCrash, Scored;
    hide CanUpstream, CanConsume, CanFlush, CanAnnounce, CanScore, CanDecide, Done, StoredAt;
    match a
    case Upstream(u) => UpstreamFrame(s, u);
    case Consumer(c) => ConsumerFrame(s, c);
    case Group(x, ga) => GroupStoreFrame(cfg, s, x, ga, g);
    case FlushStep(f) => FlushFrame(s, f);
    case Announce(p, an) => AnnounceFrame(s, p, an);
    case ScoreStep(_, _) =>
    case Crash => CrashFrame(s);
  }

  lemma OverwrittenIsFlushed(cfg: Config, s: State, g: GroupKey)
    requires Inv(cfg, s) && g in s.running && s.running[g].Upserting? && g in s.store
    requires s.store[g].eventId != s.running[g].updated.eventId
    ensures var a := s.store[g];
            && FlushedAt(s.t.events, a.eventId, a.version)
            && (forall e :: e in a.ids ==> e in s.t.member && s.t.member[e] == a.eventId)
  {
    hide Spanning, RowsOk, NothingLost, QueuesOk, SeenOk, UpdatedOk, FlushedAt, Coverage.Inv, AckSafety.Inv,
         ScoreExactness.Inv;
    var a := s.store[g];
    assert RunningOk(cfg, s.h, s.t, s.store, g, s.running[g]);
    assert ReplacementLinked(s.t.events, s.o, g, s.running[g]);
    forall e | e in a.ids ensures e in s.t.member && s.t.member[e] == a.eventId {
      assert Owns(s.h, a.eventId, a.version, e);
      StoredMeansMapped(cfg, s.h, s.t, a, e);
    }
  }

  // -------------------------------------------------------------------------------------- the flush

  /** A cache entry means its version, or a newer one, is stored and announced. */
  lemma CacheEntriesFlushed(cfg: Config, states: seq<State>, actions: seq<Action>, i: nat, ev: EventId)
    requires IsRun(cfg, states, actions) && i < |states| && ev in states[i].lastFlushed
    ensures FlushedAt(states[i].t.events, ev, states[i].lastFlushed[ev])
  {
    hide Ownership.Inv, Coverage.Inv, AckSafety.Inv, ScoreExactness.Inv;
    RunKeepsInv(cfg, states, actions, i);
  }

  /** A flush that succeeds leaves every Event it scanned stored and announced, sent or skipped. */
  lemma FlushCoversEverythingScanned(cfg: Config, states: seq<State>, actions: seq<Action>, i: nat, a: Event)
    requires IsRun(cfg, states, actions) && i < |actions|
    requires actions[i] == FlushStep(FlushEnds) || (actions[i] == FlushStep(FlushPersists) && states[i + 1].flush.Idle?)
    requires a in Seen(states[i].flush)
    ensures FlushedAt(states[i + 1].t.events, a.eventId, a.version)
    ensures var cache := states[i + 1].lastFlushed;
            a.eventId in cache && exists b :: b in Seen(states[i].flush) && b.eventId == a.eventId
                                               && b.version == cache[a.eventId]
  {
    hide Ownership.Inv, AckSafety.Inv, ScoreExactness.Inv, FlushedAt, FlushedVersions, Covered, TargetsOk;
    var s := states[i];
    RunKeepsInv(cfg, states, actions, i);
    if actions[i] == FlushStep(FlushEnds) {
      if Targets(s.o, Flusher, a) {
        DoneMeansFlushed(s.t.events, s.o, Flusher, Pending(a.eventId, a.version));
      }
    } else {
      assert a !in Changed(s.lastFlushed, s.flush.seen);
    }
  }

  // -------------------------------------------------------------------------------------- the queues

  function QueueOf(s: State, g: GroupKey): seq<Job> { if g in s.queues then s.queues[g] else [] }

  /** A group's queue gains jobs at its end, loses them at its front to the group itself, or is abandoned whole. */
  lemma QueuesAreFirstInFirstOut(cfg: Config, states: seq<State>, actions: seq<Action>, i: nat, g: GroupKey)
    requires IsRun(cfg, states, actions) && i < |actions|
    ensures var queue, queue' := QueueOf(states[i], g), QueueOf(states[i + 1], g);
            || queue' == queue
            || (exists j :: queue' == queue + [j] && EnqueuesFor(states[i], actions[i], g, j))
            || (queue != [] && queue' == queue[1..]
                && g in states[i + 1].running && states[i + 1].running[g] == Started(queue[0]))
            || (queue' == [] && (actions[i] == Group(g, GroupCloses) || actions[i] == Crash))
  {
    hide PersistAll, DoDecide, UpstreamStep, FlushEffect, AnnounceStep, Scored, CanUpstream, CanFlush, CanAnnounce,
         CanScore, CanDecide, Done, StoredAt;
    var s, a := states[i], actions[i];
    assert Enabled(s, a) && states[i + 1] == Apply(cfg, s, a);
    match a
    case Upstream(u) => UpstreamQueues(s, u);
    case Consumer(c) =>
      if c.Enqueue? && s.t.entities[s.c.sent[c.m].value].group == g {
        assert EnqueuesFor(s, a, g, Job(c.m, s.c.sent[c.m].value));
      }
    case Group(x, ga) => if ga.Decide? { DecideQueues(cfg, s, x, ga.newId, ga.now); }
    case FlushStep(f) => FlushQueues(s, f);
    case Announce(p, an) => AnnounceQueues(s, p, an);
    case ScoreStep(_, _) =>
    case Crash =>
  }

  /** The message of the step names an EntityEvent of group `g`, and is what the job is about. */
  predicate EnqueuesFor(s: State, a: Action, g: GroupKey, j: Job) {
    && a == Consumer(Enqueue(j.msg)) && Routable(s, j.msg) && s.c.sent[j.msg] == Some(j.entity)
    && j.entity in s.t.entities && s.t.entities[j.entity].group == g
  }

  lemma UpstreamQueues(s: State, u: UpstreamAction)
    requires CanUpstream(s, u)
    ensures UpstreamStep(s, u).queues == s.queues
  {
  }

  lemma DecideQueues(cfg: Config, s: State, g: GroupKey, newId: EventId, now: int)
    requires CanDecide(s, g, newId, now)
    ensures DoDecide(cfg, s, g, newId, now).queues == s.queues
  {
    hide VerdictOf, AfterVerdict;
  }

  lemma FlushQueues(s: State, f: FlushAction)
    requires CanFlush(s, f)
    ensures FlushEffect(s, f).queues == s.queues
  {
    hide PersistAll, Changed, FlushedVersions;
  }

  lemma AnnounceQueues(s: State, p: Party, a: AnnounceAction)
    requires CanAnnounce(s, p, a)
    ensures AnnounceStep(s, p, a).queues == s.queues
  {
    hide Unpublished, MarkPublished;
  }

  // ------------------------------------------------------------------------------------- the dates

  /** Active Events and stored rows are dated by the minimum and maximum over exactly their EntityEvents. */
  lemma DatesAreExact(cfg: Config, states: seq<State>, actions: seq<Action>, i: nat)
    requires IsRun(cfg, states, actions) && i < |states|
    ensures forall g :: g in states[i].store ==> Spanning(cfg, states[i].t.entities, states[i].store[g])
    ensures forall ev :: ev in states[i].t.events ==>
              RowSpans(states[i].h, states[i].t.entities, ev, states[i].t.events[ev])
  {
    hide Spanning, RowSpans, Coverage.Inv, AckSafety.Inv, ScoreExactness.Inv, FlushCache.Inv, NothingLost, AllRunningOk;
    var s := states[i];
    RunKeepsInv(cfg, states, actions, i);
    forall ev | ev in s.t.events ensures RowSpans(s.h, s.t.entities, ev, s.t.events[ev]) {
      assert RowOk(s.h, s.t.entities, ev, s.t.events[ev]);
    }
  }

  /** In every run, any EntityEvent of an active Event but the latest has another after it, a window later at most. */
  lemma NoGapExceedsTheWindow(cfg: Config, states: seq<State>, actions: seq<Action>, i: nat, g: GroupKey, e: EntityId)
    requires IsRun(cfg, states, actions) && i < |states| && g in states[i].store && e in states[i].store[g].ids
    ensures var entities, a := states[i].t.entities, states[i].store[g];
            && e in entities && entities[e].IsPersistent()
            && (At(entities, e) == a.lastSeen ||
                (exists x :: x in a.ids && x in entities && entities[x].IsPersistent()
                  && At(entities, e) < At(entities, x) <= At(entities, e) + cfg.windowHours * HOUR))
  {
    hide Spanning;
    DatesAreExact(cfg, states, actions, i);
    HasSuccessor(cfg, states[i].t.entities, states[i].store[g], e);
  }

  lemma HasSuccessor(cfg: Config, entities: map<EntityId, EntityEvent>, a: Event, e: EntityId)
    requires Spanning(cfg, entities, a) && e in a.ids
    ensures e in entities && entities[e].IsPersistent()
    ensures At(entities, e) == a.lastSeen || exists x :: x in a.ids && Follows(cfg, entities, e, x)
  {
    assert Dated(entities, e, At(entities, e));
  }

  /** With W < M, no merge moves a group's last_seen_at back. */
  lemma StepKeepsLastSeen(cfg: Config, states: seq<State>, actions: seq<Action>, i: nat, g: GroupKey)
    requires IsRun(cfg, states, actions) && i < |actions|
    requires cfg.windowHours < cfg.maxSpanHours
    requires g in states[i].store && g in states[i + 1].store
    ensures states[i].store[g].lastSeen <= states[i + 1].store[g].lastSeen
    ensures states[i].store[g].eventId != states[i + 1].store[g].eventId ==>
              states[i].store[g].lastSeen < states[i + 1].store[g].firstSeen
  {
    hide Inv, Enabled, Apply;
    RunKeepsInv(cfg, states, actions, i);
    if states[i].store[g] != states[i + 1].store[g] {
      OnlyUpsertsReplace(cfg, states[i], actions[i], g);
      UpsertMovesForward(cfg, states[i], g);
    }
  }

  /** ... so it never goes back while the group keeps having an active Event. */
  lemma {:induction false} LastSeenNeverGoesBack(cfg: Config, states: seq<State>, actions: seq<Action>,
                                                  i: nat, j: nat, g: GroupKey)
    requires IsRun(cfg, states, actions) && i <= j < |states|
    requires cfg.windowHours < cfg.maxSpanHours
    requires forall k :: i <= k <= j ==> g in states[k].store
    ensures states[i].store[g].lastSeen <= states[j].store[g].lastSeen
  {
    hide Enabled, Apply;
    if i == j {
    } else {
      LastSeenNeverGoesBack(cfg, states, actions, i, j - 1, g);
      StepKeepsLastSeen(cfg, states, actions, j - 1, g);
    }
  }

  lemma UpsertMovesForward(cfg: Config, s: State, g: GroupKey)
    requires Inv(cfg, s) && g in s.running && s.running[g].Upserting? && g in s.store
    requires cfg.windowHours < cfg.maxSpanHours
    ensures var u := s.running[g].updated;
            && s.store[g].lastSeen <= u.lastSeen
            && (s.store[g].eventId != u.eventId ==>
                  s.store[g].lastSeen < u.firstSeen &&
                  u.firstSeen == At(s.t.entities, s.running[g].job.entity) && u.ids == [s.running[g].job.entity])
  {
    hide Inv, Spanning, UpdatedOk;
    UpsertingFacts(cfg, s, g);
    MergeMovesForward(cfg, s.h, s.t.entities, g, s.running[g].job, s.store[g], s.running[g].updated);
  }

  lemma UpsertingFacts(cfg: Config, s: State, g: GroupKey)
    requires Inv(cfg, s) && g in s.running && s.running[g].Upserting? && g in s.store
    ensures var r := s.running[g];
            && r.active == Some(s.store[g])
            && UpdatedOk(cfg, s.h, s.t.entities, g, r.job, r.active, r.updated)
            && Spanning(cfg, s.t.entities, s.store[g]) && WellStored(s.t.entities)
            && s.store[g].eventId in s.h.latest
  {
    hide RowsOk, NothingLost, QueuesOk, SeenOk, Coverage.Inv, AckSafety.Inv, ScoreExactness.Inv, FlushCache.Inv,
         MembershipExact;
    hide UpdatedOk, Spanning, HistoryOk, WellStored;
    assert RunningOk(cfg, s.h, s.t, s.store, g, s.running[g]);
  }

  lemma MergeMovesForward(cfg: Config, h: History, entities: map<EntityId, EntityEvent>, g: GroupKey, j: Job, a: Event,
                          u: Event)
    requires cfg.windowHours < cfg.maxSpanHours && WellStored(entities)
    requires UpdatedOk(cfg, h, entities, g, j, Some(a), u) && Spanning(cfg, entities, a) && a.eventId in h.latest
    ensures a.lastSeen <= u.lastSeen
    ensures a.eventId != u.eventId ==>
              a.lastSeen < u.firstSeen && u.firstSeen == At(entities, j.entity) && u.ids == [j.entity]
  {
    var at := At(entities, j.entity);
    var w :| w in a.ids && Dated(entities, w, a.firstSeen);
    if !Fits(cfg, a, at) && cfg.maxSpanHours > 0 {
      ReplacesOnlyForward(cfg, a, at);
    }
  }

  /**
   When an Event is replaced because the gap exceeded the window, everything its successor ever gains,
   however late it arrives, is dated after the replaced Event's last_seen_at.
   */
  lemma SuccessorIsLater(cfg: Config, states: seq<State>, actions: seq<Action>, i: nat, j: nat, g: GroupKey,
                         e: EntityId)
    requires IsRun(cfg, states, actions) && i < j < |states|
    requires 0 <= cfg.windowHours < cfg.maxSpanHours
    requires g in states[i].store && g in states[i + 1].store
    requires var a, u := states[i].store[g], states[i + 1].store[g];
             && a.eventId != u.eventId
             && u.firstSeen - a.lastSeen > cfg.windowHours * HOUR
             && Lists(states[j], u.eventId, e)
    ensures var s := states[j];
            && e in s.t.entities && s.t.entities[e].IsPersistent()
            && At(s.t.entities, e) > states[i].store[g].lastSeen
  {
    hide Lists, Enabled, Apply, Ownership.Inv, Coverage.Inv, AckSafety.Inv, FlushCache.Inv, ScoreExactness.Inv;
    RunKeepsInv(cfg, states, actions, i);
    RunKeepsInv(cfg, states, actions, i + 1);
    RunKeepsInv(cfg, states, actions, j);
    OnlyUpsertsReplace(cfg, states[i], actions[i], g);
    UpsertMovesForward(cfg, states[i], g);
    var u := states[i + 1].store[g];
    SoleFounder(cfg, states[i + 1], g);
    RunExtendsHistory(cfg, states, actions, i + 1, j);
    ListedIsOwned(cfg, states[j], u.eventId, e);
    OwnedIsAnchored(cfg, states[j], e);
  }

  lemma SoleFounder(cfg: Config, s: State, g: GroupKey)
    requires Ownership.Inv(cfg, s) && g in s.store && |s.store[g].ids| == 1
    ensures var a := s.store[g];
            && a.eventId in s.h.latest && a.eventId in s.h.founder && s.h.founder[a.eventId] == a.ids[0]
            && a.ids[0] in s.t.entities && s.t.entities[a.ids[0]].IsPersistent()
            && At(s.t.entities, a.ids[0]) == a.firstSeen
  {
    hide RowsOk, NothingLost, QueuesOk, SeenOk, MembershipExact, AllRunningOk, HistoryOk;
    var a := s.store[g];
    assert Snapshot(cfg, s.h, s.t.entities, a);
    assert a.ids == [a.ids[0]];
    var w :| w in a.ids && Dated(s.t.entities, w, a.firstSeen);
  }

  lemma OwnedIsAnchored(cfg: Config, s: State, e: EntityId)
    requires Ownership.Inv(cfg, s) && e in s.h.owner
    ensures e in s.t.entities && s.t.entities[e].IsPersistent()
    ensures s.h.owner[e].event in s.h.founder
    ensures Anchored(cfg, s.t.entities, s.h.founder[s.h.owner[e].event], e)
  {
    hide RowsOk, NothingLost, QueuesOk, SeenOk, MembershipExact, AllRunningOk, StoreOk;
  }
}
