/**
 The aggregation and scoring layers as one state machine. A step is what one coroutine does between
 two awaits: a Redis command, a committed transaction, a query, or an ACK; the score upsert takes two, its
 version check and its write. Any step of any coroutine may come next, any call may fail, and the
 aggregation process or a scorer may crash at any point.

 Two orderings the code enforces are left open here, so every run of the code is a run of the model
 and the model has more: any number of jobs may be queued for one EntityEvent (the in-flight set only
 saves work), and a finished job's ACK may be overtaken by its group's next job.
 */
module Pipeline {
  import opened Common
  import opened SlidingWindow
  import opened Tables

  // ------------------------------------------------------------------------ aggregation layer

  /** One unit of work of a group: a stream:entity_event_completed message and its EntityEvent. */
  datatype Job = Job(msg: MsgId, entity: EntityId)

  /** Where a group's current job stands in `_merge`. */
  datatype Running =
    | Started(job: Job)
    | Loaded(job: Job, active: Option<Event>)                          // get_active_event returned
    | Replacing(job: Job, active: Option<Event>, updated: Event)       // to persist the replaced Event
    | Announcing(job: Job, active: Option<Event>, updated: Event)      // persisted, announcing it
    | Upserting(job: Job, active: Option<Event>, updated: Event)       // to write the store

  /** Where the process's one flush stands: the Events scanned so far, then the ones being announced. */
  datatype Flush =
    | Idle
    | Scanning(seen: seq<Event>)
    | Flushing(seen: seq<Event>)

  /** stream:entity_event_completed: every message ever sent, and the ones not ACKed. */
  datatype Completed = Completed(
    sent: map<MsgId, Option<EntityId>>,   // None: a malformed message
    pending: set<MsgId>,
    dead: set<MsgId>,                     // copied to the dead-letter stream
    toAck: set<MsgId>,                    // volatile: on_success is running
    missing: set<EntityId>,               // history: looked up and not found
    late: set<EntityId>)                  // history: skipped as late

  /** Which run of `_persist_and_publish` an announcer is. */
  datatype Party = Flusher | OfGroup(group: GroupKey)

  /** A run of `_persist_and_publish` after its transaction committed `targets`. */
  datatype Announcer =
    | Querying(targets: seq<Pending>)
    | Publishing(targets: seq<Pending>, todo: seq<Pending>)
    | Marking(targets: seq<Pending>, todo: seq<Pending>)               // todo[0] published, not yet marked

  // ---------------------------------------------------------------------------- scoring layer

  /** Where a scorer stands in `score_event` and `_process_one`. */
  datatype Phase =
    | Reading
    | HasEvent(version: int)
    | HasMembers(version: int, members: set<EntityId>)
    | Checked(version: int, members: set<EntityId>)   // the upsert found the version stored; its write is to come
    | Written(version: int)
    | Finished(read: Option<int>)

  datatype Scorer = Scorer(msg: MsgId, event: EventId, phase: Phase)

  /** An event_scores row: the version it scores and the EntityEvents it was computed from. */
  datatype Score = Score(version: int, members: set<EntityId>)

  datatype Scoring = Scoring(
    sent: set<MsgId>,                     // every id ever used on stream:event_aggregated
    unacked: map<MsgId, EventId>,
    announcers: map<Party, Announcer>,    // volatile
    scorers: map<nat, Scorer>,            // volatile
    scores: map<EventId, Score>,
    announced: set<Pending>,              // history: versions announced on stream:event_scored
    overwritten: set<EventId>,            // history: Events whose score an older one replaced
    delivered: set<MsgId>)                // history: messages handed to a scorer

  // -------------------------------------------------------------------------------- the whole

  /** The merge that brought an EntityEvent into an Event: which Event, and its version from then on. */
  datatype Merge = Merge(event: EventId, version: int)

  /** History variables: never read by the protocol. */
  datatype History = History(
    owner: map<EntityId, Merge>,
    groupOf: map<EventId, GroupKey>,      // every event id ever drawn
    latest: map<EventId, int>,            // every Event ever stored as active, with its latest version
    founder: map<EventId, EntityId>)      // the EntityEvent each of them was started from

  datatype State = State(
    t: Tables,
    store: map<GroupKey, Event>,          // Redis: one active Event per group
    queues: map<GroupKey, seq<Job>>,      // volatile
    running: map<GroupKey, Running>,      // volatile
    flush: Flush,                         // volatile
    lastFlushed: map<EventId, int>,       // volatile
    c: Completed,
    o: Scoring,
    h: History)

  function Initial(): State {
    State(Tables(map[], map[], map[]), map[], map[], map[], Idle, map[],
          Completed(map[], {}, {}, {}, {}, {}),
          Scoring({}, map[], map[], map[], map[], {}, {}, {}),
          History(map[], map[], map[], map[]))
  }

  /** The Entity Analysis layer stores rows and announces them. */
  datatype UpstreamAction =
    | StoreEntity(e: EntityId, row: EntityEvent)
    | Arrive(m: MsgId, payload: Option<EntityId>)

  /** AggregationConsumer: routing one delivered or reclaimed message, dead-lettering, and the ACK. */
  datatype ConsumerAction =
    | RouteMissing(m: MsgId)
    | Enqueue(m: MsgId)
    | DeadLetter(m: MsgId)
    | AckDead(m: MsgId)
    | Ack(m: MsgId)
    | AckFails(m: MsgId)

  /** One group: its GroupCoroutine, `_merge`, and its key in Redis. */
  datatype GroupAction =
    | Begin
    | Load
    | Decide(newId: EventId, now: int)
    | PersistReplaced
    | ReplacedAnnounced
    | UpsertActive(reported: bool)
    | JobFails
    | GroupCloses
    | Expire

  datatype FlushAction =
    | FlushStarts
    | FlushScans(g: GroupKey)
    | FlushPersists
    | FlushEnds
    | FlushFails

  /** `_persist_and_publish` after its commit. */
  datatype AnnounceAction =
    | Query(todo: seq<Pending>)
    | Publish(n: MsgId, seen: bool)       // seen: the reply arrived; else the publish is retried
    | Mark

  /** ScoringConsumer and `score_event`. */
  datatype ScoreAction =
    | Deliver(n: MsgId)
    | ReadEvent
    | ReadMembers
    | CheckVersion
    | WriteScore
    | SkipWrite                           // not in the code: what a condition on the update would do instead
    | AnnounceScore
    | AckScore
    | ScorerFails

  datatype Action =
    | Upstream(u: UpstreamAction)
    | Consumer(c: ConsumerAction)
    | Group(g: GroupKey, ga: GroupAction)
    | FlushStep(f: FlushAction)
    | Announce(p: Party, an: AnnounceAction)
    | ScoreStep(k: nat, sa: ScoreAction)
    | Crash                               // the aggregation process dies

  // ------------------------------------------------------------------------------ the merge

  /** What `_merge` decides once it has read the active Event and event_entity_map. */
  datatype Verdict = Duplicate | TooLate | Merged(updated: Event) | Rejected

  function Judge(cfg: Config, active: Option<Event>, ee: EntityEvent, mapped: bool, newId: EventId, now: int): Verdict
    requires ee.IsPersistent()
  {
    if (active.Some? && ee.id.value in active.value.ids) || mapped then Duplicate
    else if active.Some? && IsLate(cfg, active.value, ee) then TooLate
    else
      var r := MergeOrCreate(cfg, active, ee, newId, now);
      if r.Ok? then Merged(r.value) else Rejected
  }

  predicate Replaces(active: Option<Event>, updated: Event) {
    active.Some? && active.value.eventId != updated.eventId
  }

  function Lookup<K, V>(m: map<K, V>, k: K): Option<V> {
    if k in m then Some(m[k]) else None
  }

  function Remove<K, V>(m: map<K, V>, k: K): map<K, V> { m - {k} }

  function VersionsOf(active: seq<Event>): (r: seq<Pending>)
    ensures |r| == |active|
    ensures forall k :: 0 <= k < |r| ==> r[k] == Pending(active[k].eventId, active[k].version)
  {
    seq(|active|, k requires 0 <= k < |active| => Pending(active[k].eventId, active[k].version))
  }

  function EventsOf(targets: seq<Pending>): set<EventId> {
    set k | 0 <= k < |targets| :: targets[k].event
  }

  /** The scanned Events whose version is not the one this process last flushed. */
  function Changed(lastFlushed: map<EventId, int>, seen: seq<Event>): (r: seq<Event>)
    ensures forall a :: a in r <==> a in seen && Lookup(lastFlushed, a.eventId) != Some(a.version)
  {
    if seen == [] then []
    else
      var rest := Changed(lastFlushed, seen[..|seen| - 1]);
      var a := seen[|seen| - 1];
      if Lookup(lastFlushed, a.eventId) != Some(a.version) then rest + [a] else rest
  }

  /** The dictionary the flush leaves behind: a later entry for the same Event wins. */
  function FlushedVersions(seen: seq<Event>): (r: map<EventId, int>)
    ensures forall ev :: ev in r ==> exists a :: a in seen && a.eventId == ev && a.version == r[ev]
    ensures forall a :: a in seen ==> a.eventId in r
  {
    if seen == [] then map[]
    else
      var a := seen[|seen| - 1];
      FlushedVersions(seen[..|seen| - 1])[a.eventId := a.version]
  }

  /** The rows the membership join returns for an Event. */
  function MembersOf(member: map<EntityId, EventId>, ev: EventId): set<EntityId> {
    set e | e in member && member[e] == ev
  }

  // ---------------------------------------------------------------------------------- upstream

  predicate CanUpstream(s: State, a: UpstreamAction) {
    match a
    case StoreEntity(e, row) => e !in s.t.entities && row.id == Some(e) && row.IsPersistent()
    case Arrive(m, _) => m !in s.c.sent
  }

  function UpstreamStep(s: State, a: UpstreamAction): State {
    match a
    case StoreEntity(e, row) => s.(t := s.t.(entities := s.t.entities[e := row]))
    case Arrive(m, payload) => s.(c := s.c.(sent := s.c.sent[m := payload], pending := s.c.pending + {m}))
  }

  // -------------------------------------------------------------------------------- the consumer

  /** A delivered message may have been ACKed or dead-lettered by the other loop before its routing goes on. */
  predicate Routable(s: State, m: MsgId) {
    m in s.c.sent && s.c.sent[m].Some?
  }

  predicate CanConsume(s: State, a: ConsumerAction) {
    match a
    case RouteMissing(m) => Routable(s, m) && s.c.sent[m].value !in s.t.entities
    case Enqueue(m) => Routable(s, m) && s.c.sent[m].value in s.t.entities
    case DeadLetter(m) => m in s.c.sent
    case AckDead(m) => m in s.c.dead
    case Ack(m) => m in s.c.toAck
    case AckFails(m) => m in s.c.toAck
  }

  function ConsumerStep(s: State, a: ConsumerAction): State
    requires CanConsume(s, a)
  {
    match a
    case RouteMissing(m) =>
      s.(c := s.c.(missing := s.c.missing + {s.c.sent[m].value}, toAck := s.c.toAck + {m}))
    case Enqueue(m) =>
      var e := s.c.sent[m].value;
      var g := s.t.entities[e].group;
      var queue := if g in s.queues then s.queues[g] else [];
      s.(queues := s.queues[g := queue + [Job(m, e)]])
    case DeadLetter(m) => s.(c := s.c.(dead := s.c.dead + {m}))
    case AckDead(m) => s.(c := s.c.(pending := s.c.pending - {m}))
    case Ack(m) => s.(c := s.c.(pending := s.c.pending - {m}, toAck := s.c.toAck - {m}))
    case AckFails(m) => s.(c := s.c.(toAck := s.c.toAck - {m}))
  }

  // ----------------------------------------------------------------------------------- one group

  predicate CanDecide(s: State, g: GroupKey, newId: EventId, now: int) {
    && g in s.running && s.running[g].Loaded?
    && s.running[g].job.entity in s.t.entities && s.t.entities[s.running[g].job.entity].IsPersistent()
    && newId !in s.h.groupOf
    // aggregation_updated_at strictly increases per Event
    && (s.running[g].active.Some? && s.running[g].active.value.eventId in s.h.latest ==>
          s.h.latest[s.running[g].active.value.eventId] < now)
  }

  predicate CanGroup(s: State, g: GroupKey, a: GroupAction) {
    match a
    case Begin => g !in s.running && g in s.queues && s.queues[g] != []
    case Load => g in s.running && s.running[g].Started?
    case Decide(newId, now) => CanDecide(s, g, newId, now)
    case PersistReplaced => g in s.running && s.running[g].Replacing? && s.running[g].active.Some?
    case ReplacedAnnounced => g in s.running && s.running[g].Announcing? && Done(s.o, OfGroup(g))
    case UpsertActive(_) => g in s.running && s.running[g].Upserting?
    case JobFails => g in s.running
    case GroupCloses => true
    // a key expires only after its last version was persisted (see TimedStore)
    case Expire => g in s.store && StoredAt(s.t.events, s.store[g].eventId, s.store[g].version)
  }

  function GroupStep(cfg: Config, s: State, g: GroupKey, a: GroupAction): State
    requires CanGroup(s, g, a)
  {
    match a
    case Begin => s.(queues := s.queues[g := s.queues[g][1..]], running := s.running[g := Started(s.queues[g][0])])
    case Load => s.(running := s.running[g := Loaded(s.running[g].job, Lookup(s.store, g))])
    case Decide(newId, now) => DoDecide(cfg, s, g, newId, now)
    case PersistReplaced =>
      var r := s.running[g];
      s.(t := PersistAll(s.t, [r.active.value]),
         running := s.running[g := Announcing(r.job, r.active, r.updated)],
         o := s.o.(announcers := s.o.announcers[OfGroup(g) := Querying(VersionsOf([r.active.value]))]))
    case ReplacedAnnounced =>
      var r := s.running[g];
      s.(running := s.running[g := Upserting(r.job, r.active, r.updated)],
         o := s.o.(announcers := Remove(s.o.announcers, OfGroup(g))))
    case UpsertActive(reported) => DoUpsert(s, g, reported)
    case JobFails =>
      s.(running := Remove(s.running, g), o := s.o.(announcers := Remove(s.o.announcers, OfGroup(g))))
    case GroupCloses =>
      s.(queues := Remove(s.queues, g), running := Remove(s.running, g),
         o := s.o.(announcers := Remove(s.o.announcers, OfGroup(g))))
    case Expire => s.(store := Remove(s.store, g))
  }

  /** What a job becomes once its verdict is known, if it goes on. */
  function AfterVerdict(r: Running, v: Verdict): (next: Option<Running>)
    requires r.Loaded?
    ensures next.Some? <==> v.Merged?
  {
    if !v.Merged? then None
    else if Replaces(r.active, v.updated) then Some(Replacing(r.job, r.active, v.updated))
    else Some(Upserting(r.job, r.active, v.updated))
  }

  function VerdictOf(cfg: Config, s: State, g: GroupKey, newId: EventId, now: int): Verdict
    requires CanDecide(s, g, newId, now)
  {
    var r := s.running[g];
    Judge(cfg, r.active, s.t.entities[r.job.entity], r.job.entity in s.t.member, newId, now)
  }

  function DoDecide(cfg: Config, s: State, g: GroupKey, newId: EventId, now: int): State
    requires CanDecide(s, g, newId, now)
  {
    var r := s.running[g];
    var v := VerdictOf(cfg, s, g, newId, now);
    var next := AfterVerdict(r, v);
    s.(running := if next.Some? then s.running[g := next.value] else Remove(s.running, g),
       h := if v.Merged? && v.updated.eventId == newId then s.h.(groupOf := s.h.groupOf[newId := g]) else s.h,
       c := s.c.(late := if v.TooLate? then s.c.late + {r.job.entity} else s.c.late,
                 toAck := if v.TooLate? || v.Duplicate? then s.c.toAck + {r.job.msg} else s.c.toAck))
  }

  /** The history after `e` entered `ev`, making it version `v`. */
  function Recorded(h: History, ev: EventId, v: int, e: EntityId): History {
    h.(owner := h.owner[e := Merge(ev, v)],
       latest := h.latest[ev := v],
       founder := if ev in h.latest then h.founder else h.founder[ev := e])
  }

  function DoUpsert(s: State, g: GroupKey, reported: bool): State
    requires g in s.running && s.running[g].Upserting?
  {
    var r := s.running[g];
    s.(store := s.store[g := r.updated],
       running := Remove(s.running, g),
       c := s.c.(toAck := if reported then s.c.toAck + {r.job.msg} else s.c.toAck),
       h := Recorded(s.h, r.updated.eventId, r.updated.version, r.job.entity))
  }

  // ----------------------------------------------------------------------------------- the flush

  predicate CanFlush(s: State, a: FlushAction) {
    match a
    case FlushStarts => s.flush.Idle?
    case FlushScans(g) => s.flush.Scanning? && g in s.store
    case FlushPersists => s.flush.Scanning?
    case FlushEnds => s.flush.Flushing? && Done(s.o, Flusher)
    case FlushFails => !s.flush.Idle?
  }

  function FlushEffect(s: State, a: FlushAction): State
    requires CanFlush(s, a)
  {
    match a
    case FlushStarts => s.(flush := Scanning([]))
    case FlushScans(g) => s.(flush := Scanning(s.flush.seen + [s.store[g]]))
    case FlushPersists =>
      var changed := Changed(s.lastFlushed, s.flush.seen);
      if changed == [] then s.(flush := Idle, lastFlushed := FlushedVersions(s.flush.seen))
      else
        s.(t := PersistAll(s.t, changed), flush := Flushing(s.flush.seen),
           o := s.o.(announcers := s.o.announcers[Flusher := Querying(VersionsOf(changed))]))
    case FlushEnds =>
      s.(flush := Idle, lastFlushed := FlushedVersions(s.flush.seen),
         o := s.o.(announcers := Remove(s.o.announcers, Flusher)))
    case FlushFails => s.(flush := Idle, o := s.o.(announcers := Remove(s.o.announcers, Flusher)))
  }

  // ------------------------------------------------------------------------------- the announcers

  /** Every announcement the party owed has been made and marked. */
  predicate Done(o: Scoring, p: Party) {
    p in o.announcers && o.announcers[p].Publishing? && o.announcers[p].todo == []
  }

  ghost predicate CanAnnounce(s: State, p: Party, a: AnnounceAction) {
    && p in s.o.announcers
    && match a
       case Query(todo) =>
         s.o.announcers[p].Querying? && Unpublished(s.t.events, EventsOf(s.o.announcers[p].targets), todo)
       case Publish(n, _) => s.o.announcers[p].Publishing? && s.o.announcers[p].todo != [] && n !in s.o.sent
       case Mark => s.o.announcers[p].Marking? && s.o.announcers[p].todo != []
  }

  function AnnounceStep(s: State, p: Party, a: AnnounceAction): State
    requires CanAnnounce(s, p, a)
  {
    var r := s.o.announcers[p];
    match a
    case Query(todo) => s.(o := s.o.(announcers := s.o.announcers[p := Publishing(r.targets, todo)]))
    case Publish(n, seen) =>
      s.(o := s.o.(sent := s.o.sent + {n},
                   unacked := s.o.unacked[n := r.todo[0].event],
                   announcers := s.o.announcers[p := if seen then Marking(r.targets, r.todo) else r]))
    case Mark =>
      s.(t := s.t.(events := MarkPublished(s.t.events, r.todo[0].event, r.todo[0].version)),
         o := s.o.(announcers := s.o.announcers[p := Publishing(r.targets, r.todo[1..])]))
  }

  // ---------------------------------------------------------------------------------- the scorers

  predicate CanScore(s: State, k: nat, a: ScoreAction) {
    if a.Deliver? then k !in s.o.scorers && a.n in s.o.unacked
    else
      && k in s.o.scorers
      && var phase := s.o.scorers[k].phase;
         match a
         case Deliver(_) => true
         case ReadEvent => phase.Reading?
         case ReadMembers => phase.HasEvent?
         case CheckVersion => phase.HasMembers?
         case WriteScore => phase.Checked?
         case SkipWrite => phase.Checked? && Outdated(s.o, s.o.scorers[k])
         case AnnounceScore => phase.Written?
         case AckScore => phase.Finished?
         case ScorerFails => true
  }

  function InPhase(o: Scoring, k: nat, phase: Phase): Scoring
    requires k in o.scorers
  {
    o.(scorers := o.scorers[k := o.scorers[k].(phase := phase)])
  }

  /** The row already holds the score of a newer version than the scorer's. */
  predicate Outdated(o: Scoring, w: Scorer)
    requires w.phase.Checked?
  {
    w.event in o.scores && o.scores[w.event].version > w.phase.version
  }

  /** The effect of one step of scorer `k` on the scoring layer; it only reads the other tables. */
  function Scored(t: Tables, o: Scoring, k: nat, a: ScoreAction): Scoring
    requires a.Deliver? || k in o.scorers
    requires a.Deliver? ==> a.n in o.unacked
    requires a.ReadMembers? ==> o.scorers[k].phase.HasEvent?
    requires a.CheckVersion? ==> o.scorers[k].phase.HasMembers?
    requires a.WriteScore? || a.SkipWrite? ==> o.scorers[k].phase.Checked?
    requires a.AnnounceScore? ==> o.scorers[k].phase.Written?
  {
    match a
    case Deliver(n) =>
      o.(scorers := o.scorers[k := Scorer(n, o.unacked[n], Reading)], delivered := o.delivered + {n})
    case ReadEvent =>
      var ev := o.scorers[k].event;
      InPhase(o, k, if ev in t.events then HasEvent(t.events[ev].version) else Finished(None))
    case ReadMembers =>
      InPhase(o, k, HasMembers(o.scorers[k].phase.version, MembersOf(t.member, o.scorers[k].event)))
    case CheckVersion =>
      // the upsert's SELECT yields a row only while the stored version is the one read
      var w := o.scorers[k];
      InPhase(o, k, if w.event in t.events && t.events[w.event].version == w.phase.version
                    then Checked(w.phase.version, w.phase.members) else Finished(Some(w.phase.version)))
    case WriteScore =>
      // its insert, or the update of a row that is there by now, whatever version that one scores
      var w := o.scorers[k];
      InPhase(o.(scores := o.scores[w.event := Score(w.phase.version, w.phase.members)],
                 overwritten := if Outdated(o, w) then o.overwritten + {w.event} else o.overwritten),
              k, Written(w.phase.version))
    case SkipWrite => InPhase(o, k, Finished(Some(o.scorers[k].phase.version)))
    case AnnounceScore =>
      var w := o.scorers[k];
      InPhase(o.(announced := o.announced + {Pending(w.event, w.phase.version)}), k, Finished(Some(w.phase.version)))
    case AckScore => o.(unacked := Remove(o.unacked, o.scorers[k].msg), scorers := Remove(o.scorers, k))
    case ScorerFails => o.(scorers := Remove(o.scorers, k))
  }

  // ------------------------------------------------------------------------------------- the whole

  ghost predicate Enabled(s: State, a: Action) {
    match a
    case Upstream(u) => CanUpstream(s, u)
    case Consumer(c) => CanConsume(s, c)
    case Group(g, ga) => CanGroup(s, g, ga)
    case FlushStep(f) => CanFlush(s, f)
    case Announce(p, an) => CanAnnounce(s, p, an)
    case ScoreStep(k, sa) => CanScore(s, k, sa)
    case Crash => true
  }

  function Apply(cfg: Config, s: State, a: Action): State
    requires Enabled(s, a)
  {
    match a
    case Upstream(u) => UpstreamStep(s, u)
    case Consumer(c) => ConsumerStep(s, c)
    case Group(g, ga) => GroupStep(cfg, s, g, ga)
    case FlushStep(f) => FlushEffect(s, f)
    case Announce(p, an) => AnnounceStep(s, p, an)
    case ScoreStep(k, sa) => s.(o := Scored(s.t, s.o, k, sa))
    case Crash => AfterCrash(s)
  }

  function AfterCrash(s: State): State {
    s.(queues := map[], running := map[], flush := Idle, lastFlushed := map[],
       c := s.c.(toAck := {}), o := s.o.(announcers := map[]))
  }

  /** A run: consecutive states related by enabled steps, from the initial state. */
  ghost predicate IsRun(cfg: Config, states: seq<State>, actions: seq<Action>) {
    && |states| == |actions| + 1
    && states[0] == Initial()
    && forall i :: 0 <= i < |actions| ==>
         Enabled(states[i], actions[i]) && states[i + 1] == Apply(cfg, states[i], actions[i])
  }
}
