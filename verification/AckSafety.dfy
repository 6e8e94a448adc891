/**
 A stream:entity_event_completed message leaves the pending list only once its outcome is final, and a
 merged EntityEvent stays in its group's active Event or in event_entity_map for ever after.
 */
module AckSafety {
  import opened Common
  import opened SlidingWindow
  import opened Tables
  import opened Pipeline
  import opened Ownership

  /** Nothing is left to do for `e`: it has no row, was skipped as late, or belongs to an Event. */
  predicate Final(h: History, c: Completed, e: EntityId) {
    e in c.missing || e in c.late || e in h.owner
  }

  predicate MessageFinal(h: History, c: Completed, m: MsgId) {
    m in c.sent && c.sent[m].Some? && Final(h, c, c.sent[m].value)
  }

  predicate Tracked(c: Completed, j: Job) {
    j.msg in c.sent && c.sent[j.msg] == Some(j.entity)
  }

  ghost predicate JobsTracked(c: Completed, queues: map<GroupKey, seq<Job>>, running: map<GroupKey, Running>) {
    && (forall g, k :: g in queues && 0 <= k < |queues[g]| ==> Tracked(c, queues[g][k]))
    && (forall g :: g in running ==> Tracked(c, running[g].job))
  }

  ghost predicate AcksOk(h: History, c: Completed) {
    && c.pending <= c.sent.Keys
    && (forall m :: m in c.toAck ==> MessageFinal(h, c, m))
    && (forall m :: m in c.sent ==> m in c.pending || m in c.dead || MessageFinal(h, c, m))
  }

  ghost predicate Inv(s: State) {
    AcksOk(s.h, s.c) && JobsTracked(s.c, s.queues, s.running)
  }

  /** The duplicate check answers yes only for an EntityEvent that does belong to an Event. */
  lemma DuplicateIsOwned(cfg: Config, s: State, g: GroupKey, newId: EventId, now: int)
    requires Ownership.Inv(cfg, s) && CanDecide(s, g, newId, now)
    requires VerdictOf(cfg, s, g, newId, now).Duplicate?
    ensures s.running[g].job.entity in s.h.owner
  {
    hide NothingLost, RowsOk, StoreOk, SeenOk, QueuesOk, HistoryOk, MergeOrCreate, IsLate, Spanning;
    var r := s.running[g];
    assert RunningOk(cfg, s.h, s.t, s.store, g, r);
    if r.job.entity !in s.t.member {
      assert r.job.entity in r.active.value.ids;
      assert Owns(s.h, r.active.value.eventId, r.active.value.version, r.job.entity);
    }
  }

  lemma DecideKeeps(cfg: Config, s: State, g: GroupKey, newId: EventId, now: int)
    requires Ownership.Inv(cfg, s) && Inv(s) && CanDecide(s, g, newId, now)
    ensures Inv(DoDecide(cfg, s, g, newId, now))
  {
    hide Ownership.Inv, VerdictOf, Replaces;
    if VerdictOf(cfg, s, g, newId, now).Duplicate? { DuplicateIsOwned(cfg, s, g, newId, now); }
    assert Tracked(s.c, s.running[g].job);
  }

  lemma GroupKeeps(cfg: Config, s: State, g: GroupKey, a: GroupAction)
    requires Ownership.Inv(cfg, s) && Inv(s) && CanGroup(s, g, a)
    ensures Inv(GroupStep(cfg, s, g, a))
  {
    hide Ownership.Inv, PersistAll, DoDecide;
    match a
    case Begin =>
      var s' := GroupStep(cfg, s, g, a);
      forall x, k | x in s'.queues && 0 <= k < |s'.queues[x]| ensures Tracked(s'.c, s'.queues[x][k]) {
        if x == g { assert s'.queues[x][k] == s.queues[x][k + 1]; }
      }
      assert Tracked(s.c, s.queues[g][0]);
    case Decide(newId, now) => DecideKeeps(cfg, s, g, newId, now);
    case UpsertActive(_) => assert Tracked(s.c, s.running[g].job);
    case _ =>
  }

  lemma ConsumerKeeps(s: State, c: ConsumerAction)
    requires Inv(s) && CanConsume(s, c)
    ensures Inv(ConsumerStep(s, c))
  {
    if c.Enqueue? { EnqueueKeeps(s, c.m); }
  }

  lemma EnqueueKeeps(s: State, m: MsgId)
    requires JobsTracked(s.c, s.queues, s.running) && CanConsume(s, Enqueue(m))
    ensures var s' := ConsumerStep(s, Enqueue(m)); JobsTracked(s'.c, s'.queues, s'.running)
  {
  }

  lemma UpstreamKeeps(s: State, u: UpstreamAction)
    requires Inv(s) && CanUpstream(s, u)
    ensures Inv(UpstreamStep(s, u))
  {
  }

  lemma CrashKeeps(s: State)
    requires Inv(s)
    ensures Inv(AfterCrash(s))
  {
  }

  lemma StepKeeps(cfg: Config, s: State, a: Action)
    requires Ownership.Inv(cfg, s) && Inv(s) && Enabled(s, a)
    ensures Inv(Apply(cfg, s, a))
  {
    hide Ownership.Inv, AcksOk, JobsTracked, PersistAll, Changed, FlushedVersions, MarkPublished;
    hide UpstreamStep, ConsumerStep, GroupStep, Scored, CanScore, CanConsume, CanUpstream, CanGroup, Unpublished,
         AfterCrash;
    match a
    case Upstream(u) => UpstreamKeeps(s, u);
    case Consumer(c) => ConsumerKeeps(s, c);
    case Group(g, ga) => GroupKeeps(cfg, s, g, ga);
    case Crash => CrashKeeps(s);
    case _ =>
  }

  /** Where a finally handled EntityEvent is. */
  ghost predicate Kept(s: State, e: EntityId) {
    || e in s.t.member
    || (e in s.t.entities && s.t.entities[e].group in s.store && e in s.store[s.t.entities[e].group].ids)
  }

  lemma OwnedIsKept(cfg: Config, s: State, e: EntityId)
    requires Ownership.Inv(cfg, s) && e in s.h.owner
    ensures Kept(s, e)
  {
    hide RowsOk, SeenOk, QueuesOk, AllRunningOk, MembershipExact, Spanning;
    if e !in s.t.member {
      var a := s.store[s.t.entities[e].group];
      assert Snapshot(cfg, s.h, s.t.entities, a) && Current(s.h, a);
      assert Owns(s.h, a.eventId, a.version, e);
    }
  }
}
