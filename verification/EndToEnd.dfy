/**
 The Entity Analysis layer feeding the aggregation and scoring layers: a stored row becomes visible
 downstream, and an announcement arrives there as a stream:entity_event_completed message. Whatever was
 announced is accounted for in every reachable state, and with one analysis process whatever was stored,
 exactly if rows are stored only for article messages not ACKed yet.
 */
module EndToEnd {
  import opened Common
  import opened SlidingWindow
  import opened Tables
  import A = EntityAnalysis
  import P = Pipeline
  import Ownership
  import Coverage
  import AckSafety
  import PipelineTheorems
  import R = ScoreRace

  datatype State = State(an: A.State, pl: P.State)

  datatype Action =
    | Analysis(a: A.Action, n: MsgId)     // n: the id the announcement gets, if the step makes one
    | Downstream(p: P.Action)

  /** The rows a committed `persist_entities` makes visible downstream. */
  function StoreAll(pl: P.State, drafts: seq<A.Draft>): P.State {
    if drafts == [] then pl
    else
      var d := drafts[|drafts| - 1];
      P.UpstreamStep(StoreAll(pl, drafts[..|drafts| - 1]), P.StoreEntity(d.id, d.entity))
  }

  ghost predicate Enabled(s: State, x: Action) {
    match x
    case Analysis(a, n) => A.Enabled(s.an, a) && (a.AnnounceOne? ==> n !in s.pl.c.sent)
    case Downstream(p) => P.Enabled(s.pl, p) && !p.Upstream?
  }

  function Apply(cfg: Config, s: State, x: Action): State
    requires Enabled(s, x)
  {
    match x
    case Analysis(a, n) =>
      var pl :=
        if a.Persist? then StoreAll(s.pl, A.Stored(s.an.rows, s.an.workers[a.slot].url, a.batch))
        else if a.AnnounceOne? then P.UpstreamStep(s.pl, P.Arrive(n, Some(s.an.workers[a.slot].ids[0])))
        else s.pl;
      State(A.Apply(s.an, a), pl)
    case Downstream(p) => s.(pl := P.Apply(cfg, s.pl, p))
  }

  ghost predicate IsRun(cfg: Config, states: seq<State>, actions: seq<Action>) {
    && |states| == |actions| + 1
    && states[0] == State(A.Initial(), P.Initial())
    && forall i :: 0 <= i < |actions| ==>
         Enabled(states[i], actions[i]) && states[i + 1] == Apply(cfg, states[i], actions[i])
  }

  // ----------------------------------------------------------------------------- how they are linked

  ghost predicate Arrived(c: P.Completed, e: EntityId) {
    exists m :: m in c.sent && c.sent[m] == Some(e)
  }

  ghost predicate Linked(s: State) {
    && s.pl.t.entities.Keys == s.an.rows.Keys
    && (forall e :: e in s.an.announced ==> Arrived(s.pl.c, e))
    && (forall m :: m in s.pl.c.sent && s.pl.c.sent[m].Some? ==> s.pl.c.sent[m].value in s.an.rows)
    && s.pl.c.missing == {} && s.pl.c.late <= s.an.rows.Keys
  }

  ghost predicate Inv(cfg: Config, s: State) {
    && A.Inv(s.an)
    && PipelineTheorems.Inv(cfg, s.pl)
    && Linked(s)
  }

  lemma UpstreamKeeps(cfg: Config, pl: P.State, u: P.UpstreamAction)
    requires PipelineTheorems.Inv(cfg, pl) && P.CanUpstream(pl, u)
    ensures PipelineTheorems.Inv(cfg, P.UpstreamStep(pl, u))
  {
    hide PipelineTheorems.Inv, P.UpstreamStep;
    PipelineTheorems.StepKeepsInv(cfg, pl, P.Upstream(u));
  }

  lemma {:induction false} StoreAllKeeps(cfg: Config, pl: P.State, rows: map<EntityId, A.Row>, drafts: seq<A.Draft>)
    requires PipelineTheorems.Inv(cfg, pl) && pl.t.entities.Keys == rows.Keys && A.FreshBatch(rows, drafts)
    ensures PipelineTheorems.Inv(cfg, StoreAll(pl, drafts))
    ensures var pl' := StoreAll(pl, drafts);
            pl'.c == pl.c && pl'.store == pl.store && pl'.t.member == pl.t.member && pl'.t.events == pl.t.events
    ensures forall e :: e in StoreAll(pl, drafts).t.entities <==> e in pl.t.entities || e in A.IdsOf(drafts)
  {
    hide PipelineTheorems.Inv;
    if drafts == [] {
    } else {
      var n := |drafts| - 1;
      StoreAllKeeps(cfg, pl, rows, drafts[..n]);
      assert A.IdsOf(drafts) == A.IdsOf(drafts[..n]) + [drafts[n].id];
      UpstreamKeeps(cfg, StoreAll(pl, drafts[..n]), P.StoreEntity(drafts[n].id, drafts[n].entity));
    }
  }

  lemma PersistKeepsLinked(cfg: Config, s: State, slot: A.Slot, batch: seq<A.Draft>)
    requires PipelineTheorems.Inv(cfg, s.pl) && Linked(s) && A.Enabled(s.an, A.Persist(slot, batch))
    ensures var drafts := A.Stored(s.an.rows, s.an.workers[slot].url, batch);
            var s' := State(A.DoPersist(s.an, slot, batch), StoreAll(s.pl, drafts));
            Linked(s') && PipelineTheorems.Inv(cfg, s'.pl)
  {
    hide PipelineTheorems.Inv, A.Stored, A.Inserted, StoreAll, A.DoPersist, A.FreshBatch;
    var url := s.an.workers[slot].url;
    var drafts := A.Stored(s.an.rows, url, batch);
    A.StoredIsPart(s.an.rows, url, batch);
    A.InsertedRows(s.an.rows, url, drafts);
    StoreAllKeeps(cfg, s.pl, s.an.rows, drafts);
    A.PersistUnchanged(s.an, slot, batch);
  }

  lemma AnnounceKeepsLinked(cfg: Config, s: State, slot: A.Slot, seen: bool, n: MsgId)
    requires PipelineTheorems.Inv(cfg, s.pl) && Linked(s) && A.Inv(s.an)
    requires A.Enabled(s.an, A.AnnounceOne(slot, seen)) && n !in s.pl.c.sent
    ensures var s' := Apply(cfg, s, Analysis(A.AnnounceOne(slot, seen), n));
            Linked(s') && PipelineTheorems.Inv(cfg, s'.pl)
  {
    hide PipelineTheorems.Inv, A.UniqueRows, A.RowsSourced;
    var e := s.an.workers[slot].ids[0];
    assert A.WorkerOk(s.an, slot, s.an.workers[slot]);
    UpstreamKeeps(cfg, s.pl, P.Arrive(n, Some(e)));
    var s' := Apply(cfg, s, Analysis(A.AnnounceOne(slot, seen), n));
    forall x | x in s'.an.announced ensures Arrived(s'.pl.c, x) {
      if x == e {
        assert n in s'.pl.c.sent && s'.pl.c.sent[n] == Some(x);
      } else {
        var m :| m in s.pl.c.sent && s.pl.c.sent[m] == Some(x);
        assert m in s'.pl.c.sent && s'.pl.c.sent[m] == Some(x);
      }
    }
  }

  /** A downstream step neither adds rows or messages, nor finds a row missing. */
  lemma DownstreamKeepsLinked(cfg: Config, s: State, p: P.Action)
    requires Linked(s) && P.Enabled(s.pl, p) && !p.Upstream?
    ensures Linked(s.(pl := P.Apply(cfg, s.pl, p)))
  {
    hide P.Apply, P.Enabled;
    DownstreamTouchesNothingUpstream(cfg, s.pl, p);
    forall e: EntityId | Arrived(s.pl.c, e) ensures Arrived(P.Apply(cfg, s.pl, p).c, e) {
      var m :| m in s.pl.c.sent && s.pl.c.sent[m] == Some(e);
      assert P.Apply(cfg, s.pl, p).c.sent[m] == Some(e);
    }
  }

  lemma DownstreamTouchesNothingUpstream(cfg: Config, s: P.State, p: P.Action)
    requires P.Enabled(s, p) && !p.Upstream?
    requires forall m :: m in s.c.sent && s.c.sent[m].Some? ==> s.c.sent[m].value in s.t.entities
    ensures var s' := P.Apply(cfg, s, p);
            && s'.t.entities == s.t.entities && s'.c.sent == s.c.sent && s'.c.missing == s.c.missing
            && s'.c.late <= s.c.late + s.t.entities.Keys
  {
    hide P.ConsumerStep, P.GroupStep, P.FlushEffect, P.AnnounceStep, P.AfterCrash, P.Scored;
    hide P.CanConsume, P.CanGroup, P.CanFlush, P.CanAnnounce, P.CanScore;
    match p
    case Upstream(_) =>
    case Consumer(c) => PipelineTheorems.ConsumerFrame(s, c);
    case Group(g, ga) => PipelineTheorems.GroupFrame(cfg, s, g, ga);
    case FlushStep(f) => PipelineTheorems.FlushFrame(s, f);
    case Announce(q, an) => PipelineTheorems.AnnounceFrame(s, q, an);
    case ScoreStep(_, _) =>
    case Crash => PipelineTheorems.CrashFrame(s);
  }

  lemma StepKeeps(cfg: Config, s: State, x: Action)
    requires Inv(cfg, s) && Enabled(s, x)
    ensures Inv(cfg, Apply(cfg, s, x))
  {
    hide PipelineTheorems.Inv, P.Apply, P.Enabled, A.Enabled, A.UniqueRows, A.RowsSourced;
    hide StoreAll, A.DoPersist, A.Stored;
    match x
    case Analysis(a, n) =>
      A.StepKeeps(s.an, a);
      AnalysisKeepsLinked(cfg, s, a, n);
    case Downstream(p) =>
      PipelineTheorems.StepKeepsInv(cfg, s.pl, p);
      DownstreamKeepsLinked(cfg, s, p);
  }

  lemma AnalysisKeepsLinked(cfg: Config, s: State, a: A.Action, n: MsgId)
    requires PipelineTheorems.Inv(cfg, s.pl) && Linked(s) && A.Inv(s.an) && Enabled(s, Analysis(a, n))
    ensures var s' := Apply(cfg, s, Analysis(a, n)); Linked(s') && PipelineTheorems.Inv(cfg, s'.pl)
  {
    hide PipelineTheorems.Inv, A.Inv, StoreAll, A.DoPersist, A.Stored, A.FreshBatch, A.RowsOfUrl;
    if a.Persist? {
      PersistKeepsLinked(cfg, s, a.slot, a.batch);
    } else if a.AnnounceOne? {
      AnnounceKeepsLinked(cfg, s, a.slot, a.seen, n);
    }
  }

  lemma InitiallyOk(cfg: Config)
    ensures Inv(cfg, State(A.Initial(), P.Initial()))
  {
    A.InitiallyOk();
    PipelineTheorems.InvInitially(cfg);
  }

  lemma {:induction false} RunKeeps(cfg: Config, states: seq<State>, actions: seq<Action>, i: nat)
    requires IsRun(cfg, states, actions) && i < |states|
    ensures Inv(cfg, states[i])
  {
    hide Inv, Enabled, Apply;
    if i == 0 {
      InitiallyOk(cfg);
    } else {
      RunKeeps(cfg, states, actions, i - 1);
      StepKeeps(cfg, states[i - 1], actions[i - 1]);
    }
  }

  // --------------------------------------------------------------------------------- the theorem

  /** Its article's message still owes the announcement, or went to the dead-letter stream. */
  predicate AwaitsAnnouncement(s: State, e: EntityId) {
    e !in s.an.announced && e in s.an.storedBy && (s.an.storedBy[e] in s.an.pending || s.an.storedBy[e] in s.an.dead)
  }

  /** An announcement of it is un-ACKed or was dead-lettered. */
  ghost predicate AwaitsMerge(s: State, e: EntityId) {
    exists m :: m in s.pl.c.sent && s.pl.c.sent[m] == Some(e) && (m in s.pl.c.pending || m in s.pl.c.dead)
  }

  /** It is in its group's active Event, in a version not yet persisted. */
  predicate AwaitsFlush(s: State, e: EntityId) {
    && e in s.pl.t.entities && s.pl.t.entities[e].group in s.pl.store
    && var a := s.pl.store[s.pl.t.entities[e].group];
       e in a.ids && !StoredAt(s.pl.t.events, a.eventId, a.version)
  }

  /** It is mapped to an Event whose current version is scored from it, unannounced, or covered by a message. */
  ghost predicate ReachesScore(s: State, e: EntityId) {
    && e in s.pl.t.member && s.pl.t.member[e] in s.pl.t.events
    && var ev := s.pl.t.member[e];
       var row := s.pl.t.events[ev];
       || row.Behind()
       || (&& Coverage.Settled(s.pl.o, ev, row.version)
           && e in s.pl.o.scores[ev].members)
       || exists n :: Coverage.Covers(s.pl.o, n, ev, row.version)
  }

  /** It is mapped to an Event whose score an older one once replaced. */
  predicate Overwritten(s: State, e: EntityId) {
    e in s.pl.t.member && s.pl.t.member[e] in s.pl.o.overwritten
  }

  lemma OwnedReachesScore(cfg: Config, s: State, e: EntityId)
    requires Inv(cfg, s) && e in s.pl.h.owner
    ensures AwaitsFlush(s, e) || ReachesScore(s, e) || Overwritten(s, e)
  {
    hide A.Inv, Linked, Coverage.MessagesOk, Coverage.ScorersOk, Coverage.AnnouncersOk, AckSafety.Inv,
         Spanning, Ownership.RowSpans, Ownership.AllRunningOk, Ownership.QueuesOk, Ownership.SeenOk;
    var t, h := s.pl.t, s.pl.h;
    if e in t.member {
      var ev := t.member[e];
      assert StoredAt(t.events, ev, h.owner[e].version);
      if !t.events[ev].Behind() && Coverage.Settled(s.pl.o, ev, t.events[ev].version) {
        assert Ownership.Owns(h, ev, t.events[ev].version, e);
      }
    } else {
      var a := s.pl.store[t.entities[e].group];
      assert Ownership.Snapshot(cfg, h, t.entities, a) && Ownership.Current(h, a);
      assert Ownership.Owns(h, a.eventId, a.version, e);
    }
  }

  /**
   In every run, also with messages held twice, late stores and racing scorers, whatever was announced stays
   accounted for, up to its Event's score having been replaced by an older one.
   */
  lemma AnnouncedIsNeverLost(cfg: Config, states: seq<State>, actions: seq<Action>, i: nat, e: EntityId)
    requires IsRun(cfg, states, actions) && i < |states| && e in states[i].an.announced
    ensures var s := states[i];
            AwaitsMerge(s, e) || e in s.pl.c.late || AwaitsFlush(s, e) || ReachesScore(s, e) || Overwritten(s, e)
  {
    hide A.Inv, Ownership.Inv, Coverage.Inv, AwaitsFlush, ReachesScore, Overwritten;
    var s := states[i];
    RunKeeps(cfg, states, actions, i);
    var m :| m in s.pl.c.sent && s.pl.c.sent[m] == Some(e);
    if m !in s.pl.c.pending && m !in s.pl.c.dead {
      assert AckSafety.MessageFinal(s.pl.h, s.pl.c, m);
      if e in s.pl.h.owner { OwnedReachesScore(cfg, s, e); }
    }
  }

  /** Where a stored EntityEvent is, unless it was lost. */
  ghost predicate Accounted(s: State, e: EntityId) {
    AwaitsAnnouncement(s, e) || AwaitsMerge(s, e) || e in s.pl.c.late || AwaitsFlush(s, e) || ReachesScore(s, e)
  }

  predicate Orderly(s: State, x: Action) {
    match x
    case Analysis(a, _) => A.Unclaimed(s.an, a) && A.Timely(s.an, a)
    case Downstream(p) => R.InOrder(s.pl, p)
  }

  ghost predicate IsOrderlyRun(cfg: Config, states: seq<State>, actions: seq<Action>) {
    IsRun(cfg, states, actions) && forall i :: 0 <= i < |actions| ==> Orderly(states[i], actions[i])
  }

  /** The analysis layer never touches the scoring layer. */
  lemma AnalysisKeepsScores(cfg: Config, s: State, a: A.Action, n: MsgId)
    requires Enabled(s, Analysis(a, n))
    ensures Apply(cfg, s, Analysis(a, n)).pl.o == s.pl.o
  {
    hide A.Apply, A.Stored, A.FreshBatch, A.RowsOfUrl;
    if a.Persist? { StoreAllKeepsScores(s.pl, A.Stored(s.an.rows, s.an.workers[a.slot].url, a.batch)); }
  }

  lemma {:induction false} StoreAllKeepsScores(pl: P.State, drafts: seq<A.Draft>)
    ensures StoreAll(pl, drafts).o == pl.o
  {
    if drafts == [] {
    } else {
      StoreAllKeepsScores(pl, drafts[..|drafts| - 1]);
    }
  }

  lemma {:induction false} OrderlyRunKeeps(cfg: Config, states: seq<State>, actions: seq<Action>, i: nat)
    requires IsOrderlyRun(cfg, states, actions) && i < |states|
    ensures A.Solo(states[i].an) && A.AllOwed(states[i].an) && states[i].pl.o.overwritten == {}
  {
    hide A.Inv, A.Solo, A.AllOwed, A.Enabled, A.Apply, P.Enabled, P.Apply, StoreAll, A.Unclaimed, A.Timely,
         PipelineTheorems.Inv, Linked, R.InOrder, P.UpstreamStep;
    if i == 0 {
      A.InitiallyOk();
    } else {
      OrderlyRunKeeps(cfg, states, actions, i - 1);
      RunKeeps(cfg, states, actions, i - 1);
      var s, x := states[i - 1], actions[i - 1];
      match x
      case Analysis(a, n) =>
        A.StepKeepsSolo(s.an, a);
        A.StepKeepsOwed(s.an, a);
        AnalysisKeepsScores(cfg, s, a, n);
      case Downstream(p) => R.StepInOrder(cfg, s.pl, p);
    }
  }

  /**
   No EntityEvent is lost, while no two workers hold one article message, no row is stored for a message already
   ACKed, and no score is replaced by an older one. Once stored, it awaits its announcement, or awaits its merge,
   or was skipped as late, or is in an active Event not yet flushed, or belongs to an Event whose current version
   is scored from it or still on its way to a scorer.
   */
  lemma NoEntityEventIsLost(cfg: Config, states: seq<State>, actions: seq<Action>, i: nat, e: EntityId)
    requires IsOrderlyRun(cfg, states, actions) && i < |states| && e in states[i].an.rows
    ensures Accounted(states[i], e)
  {
    hide A.Solo, AwaitsMerge, AwaitsFlush, ReachesScore, Orderly, P.Enabled, P.Apply, A.Enabled, A.Apply;
    OrderlyRunKeeps(cfg, states, actions, i);
    assert A.Owed(states[i].an, e);
    if e in states[i].an.announced { AnnouncedIsNeverLost(cfg, states, actions, i, e); }
  }

  // ---------------------------------------------------------------------------- the exact condition

  /** One analysis process, and one scorer at a time. */
  predicate OneProcess(x: Action) {
    match x
    case Analysis(a, _) => A.OnPod0(a)
    case Downstream(p) => R.ScorerBelow(p, 1)
  }

  ghost predicate IsOneProcessRun(cfg: Config, states: seq<State>, actions: seq<Action>) {
    IsRun(cfg, states, actions) && forall i :: 0 <= i < |actions| ==> OneProcess(actions[i])
  }

  predicate TimelyStep(s: State, x: Action) {
    x.Analysis? ==> A.Timely(s.an, x.a)
  }

  lemma {:induction false} OneProcessWorksAlone(cfg: Config, states: seq<State>, actions: seq<Action>, i: nat)
    requires IsOneProcessRun(cfg, states, actions) && i < |states|
    ensures A.WorksInPod0(states[i].an) && R.OneScorer(states[i].pl.o)
  {
    hide A.Enabled, A.Apply, P.Enabled, P.Apply, StoreAll, R.OneScorer, R.ScorerBelow, Inv, P.UpstreamStep;
    if i == 0 {
      NoScorerAtFirst();
      assert states[0].an == A.Initial();
    } else {
      OneProcessWorksAlone(cfg, states, actions, i - 1);
      RunKeeps(cfg, states, actions, i - 1);
      InvScores(cfg, states[i - 1]);
      var s, x := states[i - 1], actions[i - 1];
      match x
      case Analysis(a, n) =>
        A.StepKeepsPod0(s.an, a);
        AnalysisKeepsScores(cfg, s, a, n);
      case Downstream(p) => R.StepKeepsOneScorer(cfg, s.pl, p);
    }
  }

  lemma NoScorerAtFirst()
    ensures R.OneScorer(P.Initial().o)
  {
  }

  lemma InvScores(cfg: Config, s: State)
    requires Inv(cfg, s)
    ensures Coverage.ScoresOk(s.pl.t.events, s.pl.o) && A.WorkersOk(s.an)
  {
    hide PipelineTheorems.Inv;
    R.InvScores(cfg, s.pl);
    A.InvWorkers(s.an);
  }

  /** What is not stored yet is nowhere downstream. */
  lemma NotStoredIsNowhere(cfg: Config, s: State, e: EntityId)
    requires Inv(cfg, s) && e !in s.an.rows
    ensures !AwaitsMerge(s, e) && e !in s.pl.c.late && e !in s.pl.t.member
    ensures forall g :: g in s.pl.store ==> e !in s.pl.store[g].ids
  {
    hide A.Inv, Coverage.Inv, AckSafety.Inv, Ownership.AllRunningOk, Ownership.QueuesOk, Ownership.SeenOk,
         Ownership.RowsOk,
         Ownership.NothingLost;
    forall g | g in s.pl.store ensures e !in s.pl.store[g].ids {
      assert Ownership.Snapshot(cfg, s.pl.h, s.pl.t.entities, s.pl.store[g]);
    }
  }

  /** A store for a message already ACKed leaves a row that nothing accounts for. */
  lemma LateStoreIsUnaccounted(cfg: Config, s: State, x: Action) returns (e: EntityId)
    requires Inv(cfg, s) && Enabled(s, x) && !TimelyStep(s, x)
    ensures e in Apply(cfg, s, x).an.rows && !Accounted(Apply(cfg, s, x), e)
  {
    hide A.Apply, A.Enabled, A.Timely, A.Stored, StoreAll, PipelineTheorems.Inv, P.Apply, P.Enabled, A.FreshBatch;
    e := A.LateStoreIsUnannounced(s.an, x.a);
    NotStoredIsNowhere(cfg, s, e);
    LateStoreTouchesRowsOnly(cfg, s, x);
  }

  lemma LateStoreTouchesRowsOnly(cfg: Config, s: State, x: Action)
    requires Inv(cfg, s) && Enabled(s, x) && !TimelyStep(s, x)
    ensures var pl := Apply(cfg, s, x).pl; pl.c == s.pl.c && pl.store == s.pl.store && pl.t.member == s.pl.t.member
  {
    hide A.Apply, StoreAll, PipelineTheorems.Inv, P.Apply, P.Enabled, A.FreshBatch, A.Stored, A.Inserted;
    var url := s.an.workers[x.a.slot].url;
    A.StoredIsPart(s.an.rows, url, x.a.batch);
    StoreAllKeeps(cfg, s.pl, s.an.rows, A.Stored(s.an.rows, url, x.a.batch));
  }

  /**
   With one process and scorer, every stored EntityEvent is accounted for at every moment exactly if rows are stored in
   time.
   */
  lemma AccountedExactlyWithTimelyStores(cfg: Config, states: seq<State>, actions: seq<Action>)
    requires IsOneProcessRun(cfg, states, actions)
    ensures (forall i, e :: 0 <= i < |states| && e in states[i].an.rows ==> Accounted(states[i], e)) <==>
              forall i :: 0 <= i < |actions| ==> TimelyStep(states[i], actions[i])
  {
    hide A.Apply, A.Enabled, A.Timely, P.Apply, P.Enabled, StoreAll, Accounted, Inv, R.InOrder, R.OneScorer,
         R.ScorerBelow;
    if forall i :: 0 <= i < |actions| ==> TimelyStep(states[i], actions[i]) {
      forall i | 0 <= i < |actions| ensures Orderly(states[i], actions[i]) {
        RunKeeps(cfg, states, actions, i);
        OneProcessWorksAlone(cfg, states, actions, i);
        InvScores(cfg, states[i]);
        match actions[i]
        case Analysis(a, _) => A.OneProcessIsExclusive(states[i].an, a);
        case Downstream(p) => R.StepKeepsOneScorer(cfg, states[i].pl, p);
      }
      forall i, e | 0 <= i < |states| && e in states[i].an.rows ensures Accounted(states[i], e) {
        NoEntityEventIsLost(cfg, states, actions, i, e);
      }
    } else {
      var i :| 0 <= i < |actions| && !TimelyStep(states[i], actions[i]);
      RunKeeps(cfg, states, actions, i);
      var e := LateStoreIsUnaccounted(cfg, states[i], actions[i]);
      assert e in states[i + 1].an.rows;
    }
  }
}
