/**
 The Entity Analysis layer: an article message is analysed, its EntityEvents are stored as one unit and
 then announced one by one, and the message is ACKed (app/entity_analysis, app/persistent/
 entity_event_repository.py). Any number of processes (pods) may run; each keeps its own in-flight set,
 here the keys of its workers, and looks at it only some time after it was handed a message. The LLM's answer,
 and SADI's articles, come from outside.
 */
module EntityAnalysis {
  import opened Common
  import opened SlidingWindow

  type CleanedId = nat
  type Url = nat
  type StockId = nat

  datatype Row = Row(url: Url, stock: StockId, entity: EntityEvent)

  /** One row `persist_entities` tries to insert, with the id drawn for it. */
  datatype Draft = Draft(id: EntityId, stock: StockId, entity: EntityEvent)

  /** An article in flight in one process. */
  datatype Slot = Slot(pod: nat, cleaned: CleanedId)

  /** A message one process was handed, new or reclaimed, and has not looked at yet. */
  datatype Delivery = Delivery(pod: nat, msg: MsgId)

  datatype Worker =
    | Fetching(msg: MsgId)
    | Checking(msg: MsgId, url: Url)                 // article fetched
    | Analysing(msg: MsgId, url: Url)                // no EntityEvents stored for its source_url
    | Publishing(msg: MsgId, ids: seq<EntityId>)     // still to announce
    | Acking(msg: MsgId)                             // not found in SADI

  datatype State = State(
    served: map<CleanedId, Url>,                     // what SADI serves, by now
    rows: map<EntityId, Row>,
    storedBy: map<EntityId, MsgId>,                  // history: the message whose worker stored the row
    announced: set<EntityId>,                        // history: on stream:entity_event_completed
    sent: map<MsgId, Option<CleanedId>>,             // stream:raw_news_cleaned; None: malformed
    pending: set<MsgId>,
    dead: set<MsgId>,
    claims: map<nat, Delivery>,                      // volatile
    workers: map<Slot, Worker>)                      // volatile

  datatype Action =
    | Serve(c: CleanedId, url: Url)
    | Send(m: MsgId, payload: Option<CleanedId>)
    | Claim(k: nat, pod: nat, m: MsgId)              // read or reclaimed: pending at that moment
    | Begin(k: nat)                                  // later: not in flight in this process, so taken up
    | Drop(k: nat)                                   // in flight, or the stock list is not loaded
    | Fetch(slot: Slot)
    | Check(slot: Slot, existing: seq<EntityId>)
    | Persist(slot: Slot, batch: seq<Draft>)
    | AnnounceOne(slot: Slot, seen: bool)            // seen: the reply arrived; else it is retried
    | AckArticle(slot: Slot)
    | WorkerFails(slot: Slot)
    | DeadLetter(k: nat)
    | AckDead(m: MsgId)
    | CrashPod(pod: nat)

  function Initial(): State {
    State(map[], map[], map[], {}, map[], {}, {}, map[], map[])
  }

  // ------------------------------------------------------------------------------- entity_events

  /** The unique index on (source_url, stock_code). */
  predicate Taken(rows: map<EntityId, Row>, url: Url, stock: StockId) {
    exists e :: e in rows && rows[e].url == url && rows[e].stock == stock
  }

  /** The drafts a committed `persist_entities` stores: the conflicting ones are left out. */
  function Stored(rows: map<EntityId, Row>, url: Url, batch: seq<Draft>): seq<Draft> {
    if batch == [] then []
    else
      var done := Stored(rows, url, batch[..|batch| - 1]);
      var d := batch[|batch| - 1];
      if Taken(Inserted(rows, url, done), url, d.stock) then done else done + [d]
  }

  function Inserted(rows: map<EntityId, Row>, url: Url, drafts: seq<Draft>): map<EntityId, Row> {
    if drafts == [] then rows
    else
      var d := drafts[|drafts| - 1];
      Inserted(rows, url, drafts[..|drafts| - 1])[d.id := Row(url, d.stock, d.entity)]
  }

  function IdsOf(drafts: seq<Draft>): (ids: seq<EntityId>)
    ensures |ids| == |drafts|
    ensures forall k :: 0 <= k < |ids| ==> ids[k] == drafts[k].id
  {
    seq(|drafts|, k requires 0 <= k < |drafts| => drafts[k].id)
  }

  ghost predicate FreshBatch(rows: map<EntityId, Row>, batch: seq<Draft>) {
    && (forall k :: 0 <= k < |batch| ==>
          batch[k].id !in rows && batch[k].entity.id == Some(batch[k].id) && batch[k].entity.IsPersistent())
    && (forall j, k :: 0 <= j < k < |batch| ==> batch[j].id != batch[k].id)
  }

  /** What fetch_entity_event_ids_by_source_url returns, in some order. */
  ghost predicate RowsOfUrl(rows: map<EntityId, Row>, url: Url, ids: seq<EntityId>) {
    && (forall e :: e in ids ==> e in rows && rows[e].url == url)
    && (forall e :: e in rows && rows[e].url == url ==> e in ids)
  }

  // ----------------------------------------------------------------------------------- the steps

  ghost predicate Enabled(s: State, a: Action) {
    match a
    case Serve(c, _) => c !in s.served          // an article once served keeps being served
    case Send(m, _) => m !in s.sent
    case Claim(k, _, m) => k !in s.claims && m in s.pending && m in s.sent
    case Begin(k) =>
      && k in s.claims && s.claims[k].msg in s.sent && s.sent[s.claims[k].msg].Some?
      && Slot(s.claims[k].pod, s.sent[s.claims[k].msg].value) !in s.workers
    case Drop(k) => k in s.claims
    case Fetch(slot) => slot in s.workers && s.workers[slot].Fetching?
    case Check(slot, existing) =>
      slot in s.workers && s.workers[slot].Checking? && RowsOfUrl(s.rows, s.workers[slot].url, existing)
    case Persist(slot, batch) => slot in s.workers && s.workers[slot].Analysing? && FreshBatch(s.rows, batch)
    case AnnounceOne(slot, _) => slot in s.workers && s.workers[slot].Publishing? && s.workers[slot].ids != []
    case AckArticle(slot) =>
      slot in s.workers && (s.workers[slot].Acking? || (s.workers[slot].Publishing? && s.workers[slot].ids == []))
    case WorkerFails(slot) => slot in s.workers
    case DeadLetter(k) => k in s.claims
    case AckDead(m) => m in s.dead
    case CrashPod(_) => true
  }

  function Apply(s: State, a: Action): State
    requires Enabled(s, a)
  {
    match a
    case Serve(c, url) => s.(served := s.served[c := url])
    case Send(m, payload) => s.(sent := s.sent[m := payload], pending := s.pending + {m})
    case Claim(k, pod, m) => s.(claims := s.claims[k := Delivery(pod, m)])
    case Begin(k) =>
      var d := s.claims[k];
      s.(claims := s.claims - {k}, workers := s.workers[Slot(d.pod, s.sent[d.msg].value) := Fetching(d.msg)])
    case Drop(k) => s.(claims := s.claims - {k})
    case Fetch(slot) =>
      var m := s.workers[slot].msg;
      var next := if slot.cleaned in s.served then Checking(m, s.served[slot.cleaned]) else Acking(m);
      s.(workers := s.workers[slot := next])
    case Check(slot, existing) =>
      var w := s.workers[slot];
      s.(workers := s.workers[slot := if existing != [] then Publishing(w.msg, existing) else Analysing(w.msg, w.url)])
    case Persist(slot, batch) => DoPersist(s, slot, batch)
    case AnnounceOne(slot, seen) =>
      var w := s.workers[slot];
      s.(announced := s.announced + {w.ids[0]},
         workers := s.workers[slot := if seen then Publishing(w.msg, w.ids[1..]) else w])
    case AckArticle(slot) => s.(pending := s.pending - {s.workers[slot].msg}, workers := s.workers - {slot})
    case WorkerFails(slot) => s.(workers := s.workers - {slot})
    case DeadLetter(k) => s.(dead := s.dead + {s.claims[k].msg}, claims := s.claims - {k})
    case AckDead(m) => s.(pending := s.pending - {m})
    case CrashPod(pod) =>
      s.(claims := map k | k in s.claims && s.claims[k].pod != pod :: s.claims[k],
         workers := map slot | slot in s.workers && slot.pod != pod :: s.workers[slot])
  }

  function DoPersist(s: State, slot: Slot, batch: seq<Draft>): State
    requires slot in s.workers && s.workers[slot].Analysing?
  {
    var w := s.workers[slot];
    var stored := Stored(s.rows, w.url, batch);
    s.(rows := Inserted(s.rows, w.url, stored),
       storedBy := s.storedBy + (map e | e in IdsOf(stored) :: w.msg),
       workers := s.workers[slot := Publishing(w.msg, IdsOf(stored))])
  }

  ghost predicate IsRun(states: seq<State>, actions: seq<Action>) {
    && |states| == |actions| + 1
    && states[0] == Initial()
    && forall i :: 0 <= i < |actions| ==>
         Enabled(states[i], actions[i]) && states[i + 1] == Apply(states[i], actions[i])
  }

  /** A message is taken up only while no worker of any process holds it. */
  predicate Unclaimed(s: State, a: Action) {
    a.Begin? && a.k in s.claims ==> forall slot :: slot in s.workers ==> s.workers[slot].msg != s.claims[a.k].msg
  }

  /** Rows are stored only for a message that is un-ACKed, or was dead-lettered. */
  predicate Timely(s: State, a: Action) {
    a.Persist? && a.slot in s.workers && s.workers[a.slot].Analysing?
    && Stored(s.rows, s.workers[a.slot].url, a.batch) != [] ==>
      s.workers[a.slot].msg in s.pending || s.workers[a.slot].msg in s.dead
  }

  ghost predicate IsOrderlyRun(states: seq<State>, actions: seq<Action>) {
    IsRun(states, actions)
    && forall i :: 0 <= i < |actions| ==> Unclaimed(states[i], actions[i]) && Timely(states[i], actions[i])
  }

  // ------------------------------------------------------------------------------- the invariant

  /** Every id a worker on the row's own message still has to look up, or to announce. */
  predicate OnTrack(w: Worker, e: EntityId) {
    w.Fetching? || w.Checking? || (w.Publishing? && e in w.ids)
  }

  /** The row is announced, or its message can still bring the announcement about, or was dead-lettered. */
  ghost predicate Owed(s: State, e: EntityId) {
    || e in s.announced
    || (e in s.storedBy
        && (|| s.storedBy[e] in s.dead
            || (&& s.storedBy[e] in s.pending
                && forall slot :: slot in s.workers && s.workers[slot].msg == s.storedBy[e] ==>
                     OnTrack(s.workers[slot], e))))
  }

  predicate Sourced(s: State, e: EntityId)
    requires e in s.rows
  {
    && e in s.storedBy && s.storedBy[e] in s.sent && s.sent[s.storedBy[e]].Some?
    && s.sent[s.storedBy[e]].value in s.served
    && s.served[s.sent[s.storedBy[e]].value] == s.rows[e].url
    && s.rows[e].entity.id == Some(e) && s.rows[e].entity.IsPersistent()
  }

  predicate WorkerOk(s: State, slot: Slot, w: Worker) {
    && w.msg in s.sent && s.sent[w.msg] == Some(slot.cleaned)
    && (w.Checking? || w.Analysing? ==> slot.cleaned in s.served && s.served[slot.cleaned] == w.url)
    && (w.Publishing? ==> forall k :: 0 <= k < |w.ids| ==> w.ids[k] in s.rows)
  }

  ghost predicate RowsSourced(s: State) {
    forall e :: e in s.rows ==> Sourced(s, e)
  }

  ghost predicate WorkersOk(s: State) {
    forall slot :: slot in s.workers ==> WorkerOk(s, slot, s.workers[slot])
  }

  /** No message is held by two workers. */
  ghost predicate Solo(s: State) {
    forall a, b :: a in s.workers && b in s.workers && a != b ==> s.workers[a].msg != s.workers[b].msg
  }

  ghost predicate UniqueRows(rows: map<EntityId, Row>) {
    forall a, b :: a in rows && b in rows && rows[a].url == rows[b].url && rows[a].stock == rows[b].stock ==> a == b
  }

  ghost predicate AllOwed(s: State) {
    forall e :: e in s.rows ==> Owed(s, e)
  }

  ghost predicate Inv(s: State) {
    RowsSourced(s) && WorkersOk(s) && UniqueRows(s.rows) && s.announced <= s.rows.Keys
  }

  lemma {:induction false} InsertedRows(rows: map<EntityId, Row>, url: Url, drafts: seq<Draft>)
    requires FreshBatch(rows, drafts)
    ensures var r := Inserted(rows, url, drafts);
            && (forall e :: e in rows ==> e in r && r[e] == rows[e])
            && (forall e :: e in r <==> e in rows || e in IdsOf(drafts))
            && (forall k :: 0 <= k < |drafts| ==> r[drafts[k].id] == Row(url, drafts[k].stock, drafts[k].entity))
  {
    if drafts == [] {
    } else {
      var n := |drafts| - 1;
      PrefixIsFresh(rows, drafts);
      InsertedRows(rows, url, drafts[..n]);
      assert IdsOf(drafts) == IdsOf(drafts[..n]) + [drafts[n].id];
      forall k | 0 <= k < n
        ensures Inserted(rows, url, drafts)[drafts[k].id] == Row(url, drafts[k].stock, drafts[k].entity)
      {
        assert drafts[..n][k] == drafts[k];
      }
    }
  }

  lemma {:induction false} StoredIsPart(rows: map<EntityId, Row>, url: Url, batch: seq<Draft>)
    requires FreshBatch(rows, batch)
    ensures FreshBatch(rows, Stored(rows, url, batch))
    ensures forall d :: d in Stored(rows, url, batch) ==> d in batch
  {
    hide Taken, Inserted;
    if batch == [] {
    } else {
      var n := |batch| - 1;
      StoredIsPart(rows, url, batch[..n]);
      var done := Stored(rows, url, batch[..n]);
      forall d | d in done ensures d in batch && d.id != batch[n].id {
        assert d in batch[..n];
        var k :| 0 <= k < n && batch[..n][k] == d;
        assert batch[k] == d;
      }
    }
  }

  lemma {:induction false} StoredStaysUnique(rows: map<EntityId, Row>, url: Url, batch: seq<Draft>)
    requires FreshBatch(rows, batch) && UniqueRows(rows)
    ensures UniqueRows(Inserted(rows, url, Stored(rows, url, batch)))
  {
    hide Stored, Inserted, FreshBatch;
    if batch == [] {
      StoredNothing(rows, url);
    } else {
      var n := |batch| - 1;
      PrefixIsFresh(rows, batch);
      StoredStaysUnique(rows, url, batch[..n]);
      LastDraft(rows, url, batch);
    }
  }

  lemma StoredNothing(rows: map<EntityId, Row>, url: Url)
    ensures Inserted(rows, url, Stored(rows, url, [])) == rows
  {
  }

  lemma PrefixIsFresh(rows: map<EntityId, Row>, batch: seq<Draft>)
    requires FreshBatch(rows, batch) && batch != []
    ensures FreshBatch(rows, batch[..|batch| - 1])
  {
  }

  lemma TakenGrows(rows: map<EntityId, Row>, rows': map<EntityId, Row>, url: Url, stock: StockId)
    requires forall e :: e in rows ==> e in rows' && rows'[e] == rows[e]
    requires Taken(rows, url, stock)
    ensures Taken(rows', url, stock)
  {
    var e :| e in rows && rows[e].url == url && rows[e].stock == stock;
    assert rows'[e] == rows[e];
  }

  /** What one more draft adds: its row, unless the article and stock already have one. */
  lemma LastDraft(rows: map<EntityId, Row>, url: Url, batch: seq<Draft>)
    requires FreshBatch(rows, batch) && batch != []
    ensures var d := batch[|batch| - 1];
            var before := Inserted(rows, url, Stored(rows, url, batch[..|batch| - 1]));
            var after := Inserted(rows, url, Stored(rows, url, batch));
            && after == (if Taken(before, url, d.stock) then before else before[d.id := Row(url, d.stock, d.entity)])
            && d.id !in before
  {
    hide Taken;
    var n := |batch| - 1;
    var done := Stored(rows, url, batch[..n]);
    assert (done + [batch[n]])[..|done|] == done;
    StoredIsPart(rows, url, batch[..n]);
    InsertedRows(rows, url, done);
    forall k | 0 <= k < |done| ensures done[k].id != batch[n].id {
      assert done[k] in batch[..n];
    }
  }

  /** All or nothing, and nothing twice: every entity of the batch is stored, now or before. */
  lemma {:induction false} BatchIsStored(rows: map<EntityId, Row>, url: Url, batch: seq<Draft>)
    requires FreshBatch(rows, batch)
    ensures forall k :: 0 <= k < |batch| ==> Taken(Inserted(rows, url, Stored(rows, url, batch)), url, batch[k].stock)
  {
    hide Taken, Inserted, Stored;
    if batch == [] {
    } else {
      var n := |batch| - 1;
      BatchIsStored(rows, url, batch[..n]);
      LastDraft(rows, url, batch);
      var before := Inserted(rows, url, Stored(rows, url, batch[..n]));
      var after := Inserted(rows, url, Stored(rows, url, batch));
      forall k | 0 <= k < n ensures Taken(after, url, batch[k].stock) {
        assert Taken(before, url, batch[..n][k].stock);
        TakenGrows(before, after, url, batch[k].stock);
      }
      if !Taken(before, url, batch[n].stock) {
        TakenBy(after, batch[n].id, url, batch[n].stock);
      }
    }
  }

  lemma TakenBy(rows: map<EntityId, Row>, e: EntityId, url: Url, stock: StockId)
    requires e in rows && rows[e].url == url && rows[e].stock == stock
    ensures Taken(rows, url, stock)
  {
  }

  // ----------------------------------------------------------------------------- the steps keep it

  /** A committed store keeps every row and sources the new ones from the worker's message. */
  lemma PersistShape(s: State, slot: Slot, batch: seq<Draft>)
    requires slot in s.workers && s.workers[slot].Analysing? && FreshBatch(s.rows, batch)
    ensures var s' := DoPersist(s, slot, batch); var w := s.workers[slot];
            && (forall e :: e in s.rows ==> e in s'.rows && s'.rows[e] == s.rows[e])
            && s'.workers[slot].Publishing? && s'.workers[slot].msg == w.msg
            && (forall e :: e in s'.rows <==> e in s.rows || e in s'.workers[slot].ids)
            && (forall e :: e in s'.workers[slot].ids ==>
                  && e !in s.rows && e in s'.rows && s'.rows[e].url == w.url
                  && e in s'.storedBy && s'.storedBy[e] == w.msg
                  && s'.rows[e].entity.id == Some(e) && s'.rows[e].entity.IsPersistent())
            && (forall e :: e in s.storedBy && e !in s'.workers[slot].ids ==>
                  e in s'.storedBy && s'.storedBy[e] == s.storedBy[e])
  {
    hide Taken;
    var w := s.workers[slot];
    var stored := Stored(s.rows, w.url, batch);
    StoredIsPart(s.rows, w.url, batch);
    InsertedRows(s.rows, w.url, stored);
    hide Stored, Inserted;
  }

  lemma PersistKeeps(s: State, slot: Slot, batch: seq<Draft>)
    requires Inv(s) && Enabled(s, Persist(slot, batch))
    ensures Inv(DoPersist(s, slot, batch))
  {
    hide DoPersist, UniqueRows, FreshBatch, RowsSourced, WorkersOk;
    PersistShape(s, slot, batch);
    PersistUnchanged(s, slot, batch);
    StoredStaysUnique(s.rows, s.workers[slot].url, batch);
    PersistKeepsSourced(s, slot, batch);
    PersistKeepsWorkers(s, slot, batch);
  }

  lemma PersistKeepsSourced(s: State, slot: Slot, batch: seq<Draft>)
    requires RowsSourced(s) && WorkersOk(s) && slot in s.workers && s.workers[slot].Analysing?
      && FreshBatch(s.rows, batch)
    ensures RowsSourced(DoPersist(s, slot, batch))
  {
    hide DoPersist, FreshBatch, Stored, Inserted;
    PersistShape(s, slot, batch);
    PersistUnchanged(s, slot, batch);
    var s' := DoPersist(s, slot, batch);
    assert WorkerOk(s, slot, s.workers[slot]);
    forall e | e in s'.rows ensures Sourced(s', e) {
      if e in s.rows { assert Sourced(s, e); }
    }
  }

  lemma PersistKeepsWorkers(s: State, slot: Slot, batch: seq<Draft>)
    requires WorkersOk(s) && slot in s.workers && s.workers[slot].Analysing? && FreshBatch(s.rows, batch)
    ensures WorkersOk(DoPersist(s, slot, batch))
  {
    hide DoPersist, FreshBatch, Stored, Inserted;
    PersistShape(s, slot, batch);
    PersistUnchanged(s, slot, batch);
    var s' := DoPersist(s, slot, batch);
    forall x | x in s'.workers ensures WorkerOk(s', x, s'.workers[x]) {
      assert WorkerOk(s, x, s.workers[x]);
    }
  }

  lemma PersistUnchanged(s: State, slot: Slot, batch: seq<Draft>)
    requires slot in s.workers && s.workers[slot].Analysing?
    ensures var s' := DoPersist(s, slot, batch);
            && s' == s.(rows := s'.rows, storedBy := s'.storedBy, workers := s.workers[slot := s'.workers[slot]])
            && s'.rows == Inserted(s.rows, s.workers[slot].url, Stored(s.rows, s.workers[slot].url, batch))
  {
  }

  /** Nothing but a store changes the rows, and what is served or sent stays so. */
  lemma OtherStepsKeepRows(s: State, a: Action)
    requires Enabled(s, a) && !a.Persist?
    ensures var s' := Apply(s, a);
            && s'.rows == s.rows && s'.storedBy == s.storedBy
            && (forall c :: c in s.served ==> c in s'.served && s'.served[c] == s.served[c])
            && (forall m :: m in s.sent ==> m in s'.sent && s'.sent[m] == s.sent[m])
  {
    hide RowsOfUrl;
  }

  lemma OtherStepsKeepWorkers(s: State, a: Action)
    requires WorkersOk(s) && Enabled(s, a) && !a.Persist?
    ensures WorkersOk(Apply(s, a))
  {
    var s' := Apply(s, a);
    forall x | x in s'.workers ensures WorkerOk(s', x, s'.workers[x]) {
      assert x in s.workers ==> WorkerOk(s, x, s.workers[x]);
    }
  }

  lemma OtherStepsAnnounceRows(s: State, a: Action)
    requires Inv(s) && Enabled(s, a) && !a.Persist?
    ensures Apply(s, a).announced <= s.rows.Keys
  {
    hide UniqueRows, RowsSourced, RowsOfUrl;
    if a.AnnounceOne? { assert WorkerOk(s, a.slot, s.workers[a.slot]); }
  }

  lemma StepKeeps(s: State, a: Action)
    requires Inv(s) && Enabled(s, a)
    ensures Inv(Apply(s, a))
  {
    hide UniqueRows, DoPersist, FreshBatch, Apply, Enabled;
    var s' := Apply(s, a);
    if a.Persist? {
      PersistStep(s, a.slot, a.batch);
      PersistKeeps(s, a.slot, a.batch);
    } else {
      OtherStepsKeepRows(s, a);
      OtherStepsKeepWorkers(s, a);
      OtherStepsAnnounceRows(s, a);
      forall e | e in s'.rows ensures Sourced(s', e) { assert Sourced(s, e); }
    }
  }

  lemma PersistStep(s: State, slot: Slot, batch: seq<Draft>)
    requires Enabled(s, Persist(slot, batch))
    ensures slot in s.workers && s.workers[slot].Analysing?
      && Apply(s, Persist(slot, batch)) == DoPersist(s, slot, batch)
  {
  }

  lemma StepKeepsSolo(s: State, a: Action)
    requires Solo(s) && Enabled(s, a) && Unclaimed(s, a)
    ensures Solo(Apply(s, a))
  {
    hide DoPersist, FreshBatch, RowsOfUrl;
    if a.Persist? { PersistUnchanged(s, a.slot, a.batch); PersistMsg(s, a.slot, a.batch); }
  }

  lemma PersistMsg(s: State, slot: Slot, batch: seq<Draft>)
    requires slot in s.workers && s.workers[slot].Analysing?
    ensures DoPersist(s, slot, batch).workers[slot].msg == s.workers[slot].msg
  {
  }

  lemma PersistKeepsOwed(s: State, slot: Slot, batch: seq<Draft>, e: EntityId)
    requires Solo(s) && Enabled(s, Persist(slot, batch)) && AllOwed(s) && Timely(s, Persist(slot, batch))
    requires e in DoPersist(s, slot, batch).rows
    ensures Owed(DoPersist(s, slot, batch), e)
  {
    hide DoPersist, FreshBatch;
    PersistShape(s, slot, batch);
    PersistUnchanged(s, slot, batch);
    if e in s.rows { assert Owed(s, e); }
  }

  /** A worker on the row's own message finds the article again, and then the row. */
  lemma LookupKeepsOwed(s: State, a: Action, e: EntityId)
    requires Inv(s) && Enabled(s, a) && (a.Fetch? || a.Check?) && e in s.rows && Owed(s, e)
    ensures Owed(Apply(s, a), e)
  {
    hide UniqueRows;
    assert Sourced(s, e);
    assert WorkerOk(s, a.slot, s.workers[a.slot]);
  }

  lemma WorkKeepsOwed(s: State, a: Action, e: EntityId)
    requires Solo(s) && Enabled(s, a) && (a.AnnounceOne? || a.AckArticle? || a.WorkerFails? || a.CrashPod?)
    requires Owed(s, e)
    ensures Owed(Apply(s, a), e)
  {
    if a.AnnounceOne? {
      var ids := s.workers[a.slot].ids;
      assert ids == [ids[0]] + ids[1..];
    }
  }

  lemma StepKeepsOwed(s: State, a: Action)
    requires Inv(s) && Solo(s) && AllOwed(s) && Enabled(s, a) && Timely(s, a)
    ensures AllOwed(Apply(s, a))
  {
    hide DoPersist, FreshBatch, RowsOfUrl, Inv, Solo, Timely;
    var s' := Apply(s, a);
    forall e | e in s'.rows ensures Owed(s', e) {
      if a.Persist? {
        PersistKeepsOwed(s, a.slot, a.batch, e);
      } else if a.Fetch? || a.Check? {
        LookupKeepsOwed(s, a, e);
      } else if a.AnnounceOne? || a.AckArticle? || a.WorkerFails? || a.CrashPod? {
        WorkKeepsOwed(s, a, e);
      } else {
        assert Owed(s, e);
      }
    }
  }

  // ----------------------------------------------------------------------------------- the theorems

  lemma {:induction false} RunKeeps(states: seq<State>, actions: seq<Action>, i: nat)
    requires IsRun(states, actions) && i < |states|
    ensures Inv(states[i])
  {
    hide Inv, Enabled, Apply;
    if i == 0 {
      InitiallyOk();
    } else {
      RunKeeps(states, actions, i - 1);
      StepKeeps(states[i - 1], actions[i - 1]);
    }
  }

  lemma InitiallyOk()
    ensures Inv(Initial()) && Solo(Initial()) && AllOwed(Initial())
  {
  }

  lemma {:induction false} OrderlyRunKeeps(states: seq<State>, actions: seq<Action>, i: nat)
    requires IsOrderlyRun(states, actions) && i < |states|
    ensures Inv(states[i]) && Solo(states[i]) && AllOwed(states[i])
  {
    hide Inv, Solo, AllOwed, Enabled, Apply, Unclaimed, Timely;
    if i == 0 {
      InitiallyOk();
    } else {
      OrderlyRunKeeps(states, actions, i - 1);
      var s, a := states[i - 1], actions[i - 1];
      StepKeeps(s, a);
      StepKeepsSolo(s, a);
      StepKeepsOwed(s, a);
    }
  }

  predicate NotLost(s: State, e: EntityId) {
    || e in s.announced
    || (e in s.storedBy && (s.storedBy[e] in s.pending || s.storedBy[e] in s.dead))
  }

  /**
   Every stored EntityEvent is announced, or the message that stored it is still un-ACKed or was
   dead-lettered: across crashes between the store and each announcement, failed analyses, redeliveries,
   and articles sharing a source_url, in any run where no two workers hold one message and no row is
   stored for a message already ACKed.
   */
  lemma AnnouncedOrStillOwed(states: seq<State>, actions: seq<Action>, i: nat, e: EntityId)
    requires IsOrderlyRun(states, actions) && i < |states| && e in states[i].rows
    ensures NotLost(states[i], e)
  {
    hide Inv, Solo;
    OrderlyRunKeeps(states, actions, i);
    assert Owed(states[i], e);
  }

  /** Only the processes 0 .. n-1 are handed messages. */
  ghost predicate WithPods(actions: seq<Action>, n: nat) {
    forall i :: 0 <= i < |actions| && actions[i].Claim? ==> actions[i].pod < n
  }

  predicate OnPod0(a: Action) {
    a.Claim? ==> a.pod == 0
  }

  ghost predicate WorksInPod0(s: State) {
    && (forall k :: k in s.claims ==> s.claims[k].pod == 0)
    && (forall slot :: slot in s.workers ==> slot.pod == 0)
  }

  lemma StepKeepsPod0(s: State, a: Action)
    requires WorksInPod0(s) && Enabled(s, a) && OnPod0(a)
    ensures WorksInPod0(Apply(s, a))
  {
    hide FreshBatch, RowsOfUrl, DoPersist;
    if a.Persist? { PersistUnchanged(s, a.slot, a.batch); }
  }

  lemma {:induction false} OnePodWorks(states: seq<State>, actions: seq<Action>, i: nat)
    requires IsRun(states, actions) && WithPods(actions, 1) && i < |states|
    ensures WorksInPod0(states[i])
  {
    hide Enabled, Apply;
    if i == 0 {
      assert states[0] == Initial();
    } else {
      OnePodWorks(states, actions, i - 1);
      StepKeepsPod0(states[i - 1], actions[i - 1]);
    }
  }

  /** One process's in-flight set keeps a message from being held twice, since a message names one article. */
  lemma OneProcessIsExclusive(s: State, a: Action)
    requires WorkersOk(s) && WorksInPod0(s) && Enabled(s, a)
    ensures Unclaimed(s, a)
  {
    if a.Begin? {
      forall slot | slot in s.workers ensures s.workers[slot].msg != s.claims[a.k].msg {
        assert WorkerOk(s, slot, s.workers[slot]);
      }
    }
  }

  // --------------------------------------------------------------------------- when nothing is lost

  ghost predicate LosesAt(states: seq<State>, actions: seq<Action>, i: nat, e: EntityId) {
    IsRun(states, actions) && i < |states| && e in states[i].rows && !NotLost(states[i], e)
  }

  ghost predicate AllTimely(states: seq<State>, actions: seq<Action>)
    requires |states| == |actions| + 1
  {
    forall i :: 0 <= i < |actions| ==> Timely(states[i], actions[i])
  }

  /** A row stored for an ACKed message is lost the moment it is stored, until its worker announces it. */
  lemma LateStoreIsUnannounced(s: State, a: Action) returns (e: EntityId)
    requires Inv(s) && Enabled(s, a) && !Timely(s, a)
    ensures e in Apply(s, a).rows && e !in s.rows && !NotLost(Apply(s, a), e)
  {
    hide Stored, DoPersist, FreshBatch;
    var stored := Stored(s.rows, s.workers[a.slot].url, a.batch);
    e := stored[0].id;
    PersistShape(s, a.slot, a.batch);
    PersistUnchanged(s, a.slot, a.batch);
    PersistPublishes(s, a.slot, a.batch);
    assert IdsOf(stored)[0] == e;
  }

  lemma PersistPublishes(s: State, slot: Slot, batch: seq<Draft>)
    requires slot in s.workers && s.workers[slot].Analysing?
    ensures DoPersist(s, slot, batch).workers[slot].ids == IdsOf(Stored(s.rows, s.workers[slot].url, batch))
  {
  }

  /** A run of one process keeps the guarantee exactly if it stores rows only for messages not ACKed yet. */
  lemma OneProcessLosesExactlyByLateStores(states: seq<State>, actions: seq<Action>)
    requires IsRun(states, actions) && WithPods(actions, 1)
    ensures (forall i: nat, e :: !LosesAt(states, actions, i, e)) <==> AllTimely(states, actions)
  {
    hide Apply, Enabled, Timely, NotLost;
    if AllTimely(states, actions) {
      forall i | 0 <= i < |actions| ensures Unclaimed(states[i], actions[i]) {
        RunKeeps(states, actions, i);
        OnePodWorks(states, actions, i);
        InvWorkers(states[i]);
        OneProcessIsExclusive(states[i], actions[i]);
      }
      forall i: nat, e ensures !LosesAt(states, actions, i, e) {
        if i < |states| && e in states[i].rows { AnnouncedOrStillOwed(states, actions, i, e); }
      }
    } else {
      var i :| 0 <= i < |actions| && !Timely(states[i], actions[i]);
      RunKeeps(states, actions, i);
      var e := LateStoreIsUnannounced(states[i], actions[i]);
      assert LosesAt(states, actions, i + 1, e);
    }
  }

  /**
   Stored and unannounced, its message off the pending list and not dead-lettered, and no worker about to announce it.
   */
  ghost predicate LostForGood(s: State, e: EntityId) {
    && e in s.rows && !NotLost(s, e)
    && forall slot :: slot in s.workers && s.workers[slot].Publishing? ==> e !in s.workers[slot].ids
  }

  /** What the one process leaves behind if it dies here. */
  function AfterCrash(s: State): State { Apply(s, CrashPod(0)) }

  lemma CrashLosesForGood(s: State, e: EntityId)
    requires WorksInPod0(s) && e in s.rows
    ensures LostForGood(AfterCrash(s), e) <==> !NotLost(s, e)
  {
  }

  /** One process never loses an announcement for good, wherever it dies, exactly if it stores rows in time. */
  lemma CrashesLoseExactlyByLateStores(states: seq<State>, actions: seq<Action>)
    requires IsRun(states, actions) && WithPods(actions, 1)
    ensures (forall i, e :: 0 <= i < |states| && e in states[i].rows ==> !LostForGood(AfterCrash(states[i]), e)) <==>
              AllTimely(states, actions)
  {
    hide Apply, Enabled, Timely, NotLost, LostForGood, AfterCrash;
    OneProcessLosesExactlyByLateStores(states, actions);
    forall i, e | 0 <= i < |states| && e in states[i].rows
      ensures LostForGood(AfterCrash(states[i]), e) <==> LosesAt(states, actions, i, e)
    {
      OnePodWorks(states, actions, i);
      CrashLosesForGood(states[i], e);
    }
  }

  lemma InvWorkers(s: State)
    requires Inv(s)
    ensures WorkersOk(s)
  {
  }

  /** Every message being worked on is un-ACKed or dead-lettered. */
  ghost predicate HeldInTime(s: State) {
    Solo(s) && forall slot :: slot in s.workers ==> s.workers[slot].msg in s.pending || s.workers[slot].msg in s.dead
  }

  predicate TakenUpInTime(s: State, a: Action) {
    a.Begin? && a.k in s.claims ==> s.claims[a.k].msg in s.pending || s.claims[a.k].msg in s.dead
  }

  lemma StepKeepsHeldInTime(s: State, a: Action)
    requires HeldInTime(s) && Enabled(s, a) && Unclaimed(s, a) && TakenUpInTime(s, a)
    ensures HeldInTime(Apply(s, a)) && Timely(s, a)
  {
    hide DoPersist, FreshBatch, RowsOfUrl, Stored;
    if a.Persist? { PersistUnchanged(s, a.slot, a.batch); PersistMsg(s, a.slot, a.batch); }
  }

  /** It is enough that one process takes a message up only while it is still un-ACKed. */
  lemma {:induction false} TakenUpInTimeIsTimely(states: seq<State>, actions: seq<Action>, i: nat)
    requires IsRun(states, actions) && WithPods(actions, 1) && i <= |actions|
    requires forall j :: 0 <= j < |actions| ==> TakenUpInTime(states[j], actions[j])
    ensures HeldInTime(states[i]) && forall j :: 0 <= j < i ==> Timely(states[j], actions[j])
  {
    hide Apply, Enabled, Timely, TakenUpInTime, Unclaimed, Inv, WorksInPod0;
    if i == 0 {
      assert states[0] == Initial();
    } else {
      TakenUpInTimeIsTimely(states, actions, i - 1);
      RunKeeps(states, actions, i - 1);
      InvWorkers(states[i - 1]);
      OnePodWorks(states, actions, i - 1);
      OneProcessIsExclusive(states[i - 1], actions[i - 1]);
      StepKeepsHeldInTime(states[i - 1], actions[i - 1]);
    }
  }

  // ------------------------------------------------------------------------------ the runs that lose

  ghost predicate Step(s: State, a: Action, s': State) {
    Enabled(s, a) && s' == Apply(s, a)
  }

  /** Some run of n processes, with its stores in time if `timely`, ends in `s`. */
  ghost predicate CanReach(n: nat, timely: bool, s: State) {
    exists states, actions :: EndsIn(states, actions, n, timely, s)
  }

  ghost predicate EndsIn(states: seq<State>, actions: seq<Action>, n: nat, timely: bool, s: State) {
    && IsRun(states, actions) && states[|actions|] == s
    && WithPods(actions, n) && (timely ==> AllTimely(states, actions))
  }

  lemma InitiallyReached(n: nat, timely: bool)
    ensures CanReach(n, timely, Initial())
  {
    assert EndsIn([Initial()], [], n, timely, Initial());
  }

  lemma Reach(n: nat, timely: bool, s: State, a: Action, s': State)
    requires CanReach(n, timely, s) && Step(s, a, s')
    requires (a.Claim? ==> a.pod < n) && (timely ==> Timely(s, a))
    ensures CanReach(n, timely, s')
  {
    hide Enabled, Apply, Timely;
    var states, actions :| EndsIn(states, actions, n, timely, s);
    assert EndsIn(states + [s'], actions + [a], n, timely, s');
  }

  /** Only a store needs to be in time. */
  lemma ReachByReading(n: nat, timely: bool, s: State, a: Action, s': State)
    requires CanReach(n, timely, s) && Step(s, a, s') && !a.Persist? && (a.Claim? ==> a.pod < n)
    ensures CanReach(n, timely, s')
  {
    hide Step, CanReach;
    Reach(n, timely, s, a, s');
  }

  /** Message 1 announces article 0, which SADI serves at URL 5. */
  function Scene(rows: map<EntityId, Row>, storedBy: map<EntityId, MsgId>, pending: set<MsgId>,
                 claims: map<nat, Delivery>, workers: map<Slot, Worker>): State
  {
    State(map[0 := 5], rows, storedBy, {}, map[1 := Some(0)], pending, {}, claims, workers)
  }

  /** A scene before anything is stored, its message pending. */
  function Early(claims: map<nat, Delivery>, workers: map<Slot, Worker>): State {
    Scene(map[], map[], {1}, claims, workers)
  }

  function BothAt(w: Worker): (workers: map<Slot, Worker>)
    ensures forall slot :: slot in workers ==> workers[slot] == w
  {
    map[Slot(0, 0) := w, Slot(1, 0) := w]
  }

  lemma MessageArrives()
    ensures Step(Initial(), Serve(0, 5), Initial().(served := map[0 := 5]))
    ensures Step(Initial().(served := map[0 := 5]), Send(1, Some(0)), Early(map[], map[]))
    ensures forall pod :: Step(Early(map[], map[]), Claim(pod, pod, 1), Early(map[pod := Delivery(pod, 1)], map[]))
  {
  }

  lemma BothBegin()
    ensures Step(Early(map[0 := Delivery(0, 1)], map[]), Claim(1, 1, 1),
                 Early(map[0 := Delivery(0, 1), 1 := Delivery(1, 1)], map[]))
    ensures Step(Early(map[0 := Delivery(0, 1), 1 := Delivery(1, 1)], map[]), Begin(0),
                 Early(map[1 := Delivery(1, 1)], map[Slot(0, 0) := Fetching(1)]))
    ensures Step(Early(map[1 := Delivery(1, 1)], map[Slot(0, 0) := Fetching(1)]), Begin(1),
                 Early(map[], BothAt(Fetching(1))))
  {
  }

  lemma BothLookUp()
    ensures var mid := map[Slot(0, 0) := Checking(1, 5), Slot(1, 0) := Fetching(1)];
            && Step(Early(map[], BothAt(Fetching(1))), Fetch(Slot(0, 0)), Early(map[], mid))
            && Step(Early(map[], mid), Fetch(Slot(1, 0)), Early(map[], BothAt(Checking(1, 5))))
    ensures var mid := map[Slot(0, 0) := Analysing(1, 5), Slot(1, 0) := Checking(1, 5)];
            && Step(Early(map[], BothAt(Checking(1, 5))), Check(Slot(0, 0), []), Early(map[], mid))
            && Step(Early(map[], mid), Check(Slot(1, 0), []), Early(map[], BothAt(Analysing(1, 5))))
  {
  }

  lemma StoreOne(rows: map<EntityId, Row>, d: Draft)
    ensures Stored(rows, 5, [d]) == if Taken(rows, 5, d.stock) then [] else [d]
    ensures Inserted(rows, 5, []) == rows && Inserted(rows, 5, [d]) == rows[d.id := Row(5, d.stock, d.entity)]
    ensures IdsOf([]) == [] && IdsOf([d]) == [d.id]
  {
    hide Taken;
    assert [d][..0] == [];
    assert Stored(rows, 5, []) == [] && Inserted(rows, 5, []) == rows;
  }

  lemma FirstStores(d: Draft)
    requires d.entity.id == Some(d.id) && d.entity.IsPersistent()
    ensures var row := map[d.id := Row(5, d.stock, d.entity)];
            var mid := map[Slot(0, 0) := Publishing(1, [d.id]), Slot(1, 0) := Analysing(1, 5)];
            Step(Early(map[], BothAt(Analysing(1, 5))), Persist(Slot(0, 0), [d]),
                 Scene(row, map[d.id := 1], {1}, map[], mid))
  {
    hide Stored, Inserted, IdsOf;
    StoreOne(map[], d);
    assert FreshBatch(map[], [d]);
  }

  lemma FirstDies(d: Draft)
    ensures var row := map[d.id := Row(5, d.stock, d.entity)]; var origin := map[d.id := 1];
            var mid := map[Slot(0, 0) := Publishing(1, [d.id]), Slot(1, 0) := Analysing(1, 5)];
            Step(Scene(row, origin, {1}, map[], mid), CrashPod(0),
                 Scene(row, origin, {1}, map[], map[Slot(1, 0) := Analysing(1, 5)]))
  {
  }

  lemma SecondStoresNothing(d: Draft, d': Draft)
    requires d'.entity.id == Some(d'.id) && d'.entity.IsPersistent() && d'.id != d.id && d'.stock == d.stock
    ensures var row := map[d.id := Row(5, d.stock, d.entity)]; var origin := map[d.id := 1];
            var end := map[Slot(1, 0) := Publishing(1, [])];
            && Step(Scene(row, origin, {1}, map[], map[Slot(1, 0) := Analysing(1, 5)]), Persist(Slot(1, 0), [d']),
                    Scene(row, origin, {1}, map[], end))
            && Step(Scene(row, origin, {1}, map[], end), AckArticle(Slot(1, 0)), Scene(row, origin, {}, map[], map[]))
  {
    hide Stored, Inserted, IdsOf, Taken;
    var row := map[d.id := Row(5, d.stock, d.entity)];
    StoreOne(row, d');
    TakenBy(row, d.id, 5, d.stock);
    assert FreshBatch(row, [d']);
  }

  /** The row is stored, its message ACKed, and no process has anything in hand. */
  function Lost(d: Draft): State {
    Scene(map[d.id := Row(5, d.stock, d.entity)], map[d.id := 1], {}, map[], map[])
  }

  lemma OneClaims(n: nat, timely: bool)
    requires n >= 1
    ensures CanReach(n, timely, Early(map[0 := Delivery(0, 1)], map[]))
  {
    hide CanReach, Step, Initial, Early;
    MessageArrives();
    InitiallyReached(n, timely);
    ReachByReading(n, timely, Initial(), Serve(0, 5), Initial().(served := map[0 := 5]));
    ReachByReading(n, timely, Initial().(served := map[0 := 5]), Send(1, Some(0)), Early(map[], map[]));
    ReachByReading(n, timely, Early(map[], map[]), Claim(0, 0, 1), Early(map[0 := Delivery(0, 1)], map[]));
  }

  lemma BothAnalyse()
    ensures CanReach(2, true, Early(map[], BothAt(Analysing(1, 5))))
  {
    hide CanReach, Step, BothAt, Early;
    OneClaims(2, true);
    BothBegin();
    BothLookUp();
    var p, q := Slot(0, 0), Slot(1, 0);
    var c, c' := Delivery(0, 1), Delivery(1, 1);
    ReachByReading(2, true, Early(map[0 := c], map[]), Claim(1, 1, 1), Early(map[0 := c, 1 := c'], map[]));
    ReachByReading(2, true, Early(map[0 := c, 1 := c'], map[]), Begin(0), Early(map[1 := c'], map[p := Fetching(1)]));
    ReachByReading(2, true, Early(map[1 := c'], map[p := Fetching(1)]), Begin(1), Early(map[], BothAt(Fetching(1))));
    var mid := Early(map[], map[p := Checking(1, 5), q := Fetching(1)]);
    ReachByReading(2, true, Early(map[], BothAt(Fetching(1))), Fetch(p), mid);
    ReachByReading(2, true, mid, Fetch(q), Early(map[], BothAt(Checking(1, 5))));
    var late := Early(map[], map[p := Analysing(1, 5), q := Checking(1, 5)]);
    ReachByReading(2, true, Early(map[], BothAt(Checking(1, 5))), Check(p, []), late);
    ReachByReading(2, true, late, Check(q, []), Early(map[], BothAt(Analysing(1, 5))));
  }

  lemma InTimeWhilePending(s: State, a: Action)
    requires forall slot :: slot in s.workers ==> s.workers[slot].msg in s.pending
    ensures Timely(s, a)
  {
    hide Stored;
  }

  /**
   Two processes take up one message (the second by reclaiming it), both see nothing stored for the
   article, the first stores its EntityEvent and dies before announcing it, and the second's insert
   conflicts, so it announces nothing and ACKs. Every store is in time, and the row stays unannounced.
   */
  lemma TwoProcessesCanLose(d: Draft, d': Draft)
    requires d.entity.id == Some(d.id) && d.entity.IsPersistent()
    requires d'.entity.id == Some(d'.id) && d'.entity.IsPersistent() && d'.id != d.id && d'.stock == d.stock
    ensures CanReach(2, true, Lost(d)) && LostForGood(Lost(d), d.id)
  {
    hide CanReach, Step, BothAt, Timely;
    BothAnalyse();
    FirstStores(d);
    FirstDies(d);
    SecondStoresNothing(d, d');
    var row, origin := map[d.id := Row(5, d.stock, d.entity)], map[d.id := 1];
    var p, q := Slot(0, 0), Slot(1, 0);
    var both := Early(map[], BothAt(Analysing(1, 5)));
    var mid := Scene(row, origin, {1}, map[], map[p := Publishing(1, [d.id]), q := Analysing(1, 5)]);
    var alone := Scene(row, origin, {1}, map[], map[q := Analysing(1, 5)]);
    var end := Scene(row, origin, {1}, map[], map[q := Publishing(1, [])]);
    InTimeWhilePending(both, Persist(p, [d]));
    InTimeWhilePending(alone, Persist(q, [d']));
    Reach(2, true, both, Persist(p, [d]), mid);
    ReachByReading(2, true, mid, CrashPod(0), alone);
    Reach(2, true, alone, Persist(q, [d']), end);
    ReachByReading(2, true, end, AckArticle(q), Lost(d));
  }

  /** One process looks an article up, and is handed its message again meanwhile. */
  lemma OneLooksUp()
    ensures Step(Early(map[0 := Delivery(0, 1)], map[]), Begin(0), Early(map[], map[Slot(0, 0) := Fetching(1)]))
    ensures Step(Early(map[], map[Slot(0, 0) := Fetching(1)]), Fetch(Slot(0, 0)),
        Early(map[], map[Slot(0, 0) := Checking(1, 5)]))
    ensures Step(Early(map[], map[Slot(0, 0) := Checking(1, 5)]), Check(Slot(0, 0), []),
                 Early(map[], map[Slot(0, 0) := Analysing(1, 5)]))
    ensures Step(Early(map[], map[Slot(0, 0) := Analysing(1, 5)]), Claim(1, 0, 1),
                 Early(map[1 := Delivery(0, 1)], map[Slot(0, 0) := Analysing(1, 5)]))
  {
  }

  lemma FindsNothing()
    ensures var again := map[1 := Delivery(0, 1)];
            && Step(Early(again, map[Slot(0, 0) := Analysing(1, 5)]), Persist(Slot(0, 0), []),
                    Early(again, map[Slot(0, 0) := Publishing(1, [])]))
            && Step(Early(again, map[Slot(0, 0) := Publishing(1, [])]), AckArticle(Slot(0, 0)),
                    Scene(map[], map[], {}, again, map[]))
            && Step(Scene(map[], map[], {}, again, map[]), Begin(1),
                    Scene(map[], map[], {}, map[], map[Slot(0, 0) := Fetching(1)]))
  {
    assert Stored(map[], 5, []) == [] && Inserted(map[], 5, []) == map[] && IdsOf([]) == [];
  }

  lemma LooksUpAgain()
    ensures var p := Slot(0, 0);
            && Step(Scene(map[], map[], {}, map[], map[p := Fetching(1)]), Fetch(p),
                    Scene(map[], map[], {}, map[], map[p := Checking(1, 5)]))
            && Step(Scene(map[], map[], {}, map[], map[p := Checking(1, 5)]), Check(p, []),
                    Scene(map[], map[], {}, map[], map[p := Analysing(1, 5)]))
  {
  }

  lemma FindsSomething(d: Draft)
    requires d.entity.id == Some(d.id) && d.entity.IsPersistent()
    ensures var p := Slot(0, 0);
            Step(Scene(map[], map[], {}, map[], map[p := Analysing(1, 5)]), Persist(p, [d]),
                 Scene(map[d.id := Row(5, d.stock, d.entity)], map[d.id := 1], {}, map[],
                     map[p := Publishing(1, [d.id])]))
  {
    hide Stored, Inserted, IdsOf;
    StoreOne(map[], d);
    assert FreshBatch(map[], [d]);
  }

  lemma DiesToo(d: Draft)
    ensures var row := map[d.id := Row(5, d.stock, d.entity)]; var origin := map[d.id := 1];
            Step(Scene(row, origin, {}, map[], map[Slot(0, 0) := Publishing(1, [d.id])]), CrashPod(0),
                 Scene(row, origin, {}, map[], map[]))
  {
  }

  /**
   One process reclaims a message while it is still analysing it, finds no company, ACKs, and only then
   looks at the reclaimed copy: the article is no longer in flight and has no row, the new analysis does
   find a company, and the process dies after storing it. Nothing will announce the row.
   */
  lemma OneProcessCanLose(d: Draft)
    requires d.entity.id == Some(d.id) && d.entity.IsPersistent()
    ensures CanReach(1, false, Lost(d)) && LostForGood(Lost(d), d.id)
  {
    hide CanReach, Step;
    OneClaims(1, false);
    OneLooksUp();
    FindsNothing();
    LooksUpAgain();
    FindsSomething(d);
    DiesToo(d);
    var row, origin := map[d.id := Row(5, d.stock, d.entity)], map[d.id := 1];
    var p := Slot(0, 0);
    var again := map[1 := Delivery(0, 1)];
    ReachByReading(1, false, Early(map[0 := Delivery(0, 1)], map[]), Begin(0), Early(map[], map[p := Fetching(1)]));
    ReachByReading(1, false, Early(map[], map[p := Fetching(1)]), Fetch(p), Early(map[], map[p := Checking(1, 5)]));
    ReachByReading(1, false, Early(map[], map[p := Checking(1, 5)]), Check(p, []),
        Early(map[], map[p := Analysing(1, 5)]));
    ReachByReading(1, false, Early(map[], map[p := Analysing(1, 5)]), Claim(1, 0, 1),
        Early(again, map[p := Analysing(1, 5)]));
    Reach(1, false, Early(again, map[p := Analysing(1, 5)]), Persist(p, []), Early(again, map[p := Publishing(1, [])]));
    ReachByReading(1, false, Early(again, map[p := Publishing(1, [])]), AckArticle(p),
        Scene(map[], map[], {}, again, map[]));
    var anew := Scene(map[], map[], {}, map[], map[p := Fetching(1)]);
    ReachByReading(1, false, Scene(map[], map[], {}, again, map[]), Begin(1), anew);
    ReachByReading(1, false, anew, Fetch(p), Scene(map[], map[], {}, map[], map[p := Checking(1, 5)]));
    var late := Scene(map[], map[], {}, map[], map[p := Analysing(1, 5)]);
    ReachByReading(1, false, Scene(map[], map[], {}, map[], map[p := Checking(1, 5)]), Check(p, []), late);
    var stored := Scene(row, origin, {}, map[], map[p := Publishing(1, [d.id])]);
    Reach(1, false, late, Persist(p, [d]), stored);
    ReachByReading(1, false, stored, CrashPod(0), Lost(d));
  }

  // ------------------------------------------------------------------------------ the exact condition

  /** With n processes, and stores in time if `timely`, no run ever loses an announcement. */
  ghost predicate NeverLosesWith(n: nat, timely: bool) {
    forall states, actions, i: nat, e :: !LosesWith(states, actions, n, timely, i, e)
  }

  ghost predicate LosesWith(states: seq<State>, actions: seq<Action>, n: nat, timely: bool, i: nat, e: EntityId) {
    WithPods(actions, n) && LosesAt(states, actions, i, e) && (timely ==> AllTimely(states, actions))
  }

  /** ... or, of all its runs, none loses one for good. */
  ghost predicate NeverLosesForGoodWith(n: nat, timely: bool) {
    forall states, actions, i: nat, e :: LosesWith(states, actions, n, timely, i, e) ==> !LostForGood(states[i], e)
  }

  /** Two processes lose even with every store in time; one loses only by a store that is not. */
  lemma SomeRunLoses(n: nat, timely: bool)
    requires n >= 2 || (n == 1 && !timely)
    ensures !NeverLosesWith(n, timely) && !NeverLosesForGoodWith(n, timely)
  {
    hide IsRun, NotLost, AllTimely, Scene;
    var g := GroupKey("HKEX", "00700", Earnings);
    var d := Draft(7, 3, EntityEvent(Some(7), g, None, Some(0)));
    var d' := Draft(8, 3, EntityEvent(Some(8), g, None, Some(0)));
    if n == 1 { OneProcessCanLose(d); } else { TwoProcessesCanLose(d, d'); }
    var m, t := if n == 1 then 1 else 2, n != 1;
    var states, actions :| EndsIn(states, actions, m, t, Lost(d));
    RunLength(states, actions);
    assert LosesAt(states, actions, |actions|, d.id);
    assert LosesWith(states, actions, n, timely, |actions|, d.id);
  }

  lemma RunLength(states: seq<State>, actions: seq<Action>)
    requires IsRun(states, actions)
    ensures |states| == |actions| + 1
  {
  }

  /** Without processes nothing is ever stored. */
  lemma {:induction false} NoProcessNoRows(states: seq<State>, actions: seq<Action>, i: nat)
    requires IsRun(states, actions) && WithPods(actions, 0) && i < |states|
    ensures states[i].claims == map[] && states[i].workers == map[] && states[i].rows == map[]
  {
    if i == 0 {
      assert states[0] == Initial();
    } else {
      NoProcessNoRows(states, actions, i - 1);
    }
  }

  /** The announcement guarantee holds of all runs exactly with one process that stores rows in time, or with none. */
  lemma NeverLosesExactlyWhen(n: nat, timely: bool)
    ensures NeverLosesWith(n, timely) <==> n == 0 || (n == 1 && timely)
    ensures NeverLosesForGoodWith(n, timely) <==> n == 0 || (n == 1 && timely)
  {
    hide IsRun, Timely, NotLost;
    if n >= 2 || (n == 1 && !timely) {
      SomeRunLoses(n, timely);
    } else {
      forall states, actions, i: nat, e ensures !LosesWith(states, actions, n, timely, i, e) {
        if LosesWith(states, actions, n, timely, i, e) {
          if n == 0 { NoProcessNoRows(states, actions, i); } else { OneProcessKeepsItsPromise(states, actions, i, e); }
        }
      }
    }
  }

  lemma OneProcessKeepsItsPromise(states: seq<State>, actions: seq<Action>, i: nat, e: EntityId)
    requires IsRun(states, actions) && WithPods(actions, 1) && AllTimely(states, actions)
    ensures !LosesAt(states, actions, i, e)
  {
    OneProcessLosesExactlyByLateStores(states, actions);
  }
}
