/**
 No state of the Entity Analysis layer is a dead end for an article: whatever has failed or crashed, some
 continuation stores its EntityEvents, announces every one and ACKs its message.
 */
module AnalysisProgress {
  import opened Common
  import opened EntityAnalysis

  /** The state after these actions, if each of them is enabled in its turn. */
  ghost function Execute(s: State, actions: seq<Action>): Option<State>
    decreases |actions|
  {
    if actions == [] then Some(s)
    else if Enabled(s, actions[0]) then Execute(Apply(s, actions[0]), actions[1..])
    else None
  }

  ghost predicate CanReach(s: State, s': State) {
    exists actions :: Execute(s, actions) == Some(s')
  }

  lemma {:induction false} ExecuteOneMore(s: State, actions: seq<Action>, t: State, a: Action)
    requires Execute(s, actions) == Some(t) && Enabled(t, a)
    ensures Execute(s, actions + [a]) == Some(Apply(t, a))
    decreases |actions|
  {
    hide Enabled, Apply;
    if actions == [] {
      assert Execute(Apply(t, a), []) == Some(Apply(t, a));
      assert [a][1..] == [];
    } else {
      ExecuteOneMore(Apply(s, actions[0]), actions[1..], t, a);
      assert (actions + [a])[1..] == actions[1..] + [a];
    }
  }

  lemma Go(s0: State, s: State, a: Action) returns (s': State)
    requires CanReach(s0, s) && Enabled(s, a)
    ensures CanReach(s0, s') && s' == Apply(s, a)
  {
    hide Enabled, Apply;
    s' := Apply(s, a);
    var actions :| Execute(s0, actions) == Some(s);
    ExecuteOneMore(s0, actions, s, a);
  }

  /** The rows of an article, as the query lists them. */
  lemma {:induction false} RowsListed(rows: map<EntityId, Row>, url: Url, among: set<EntityId>)
    returns (ids: seq<EntityId>)
    requires among <= rows.Keys
    ensures forall e :: e in ids <==> e in among && rows[e].url == url
  {
    if among == {} {
      ids := [];
    } else {
      var e :| e in among;
      ids := RowsListed(rows, url, among - {e});
      if rows[e].url == url { ids := ids + [e]; }
    }
  }

  /** A worker that announces goes on until nothing is left. */
  lemma {:induction false} AnnouncesAll(s0: State, s: State, slot: Slot) returns (s': State)
    requires CanReach(s0, s) && slot in s.workers && s.workers[slot].Publishing?
    ensures CanReach(s0, s') && slot in s'.workers && s'.workers[slot] == Publishing(s.workers[slot].msg, [])
    ensures s'.rows == s.rows && s'.pending == s.pending
    ensures forall e :: e in s.announced || e in s.workers[slot].ids ==> e in s'.announced
    decreases |s.workers[slot].ids|
  {
    hide CanReach;
    var w := s.workers[slot];
    if w.ids == [] {
      s' := s;
    } else {
      var s1 := Go(s0, s, AnnounceOne(slot, true));
      assert s1.workers[slot] == Publishing(w.msg, w.ids[1..]);
      s' := AnnouncesAll(s0, s1, slot);
      assert forall e :: e in w.ids ==> e == w.ids[0] || e in w.ids[1..];
    }
  }

  /** An un-ACKed message can be taken up by a new process, up to the look at the article's rows. */
  lemma Fetches(s: State, m: MsgId, c: CleanedId) returns (s': State, slot: Slot)
    requires m in s.sent && s.sent[m] == Some(c) && m in s.pending && c in s.served
    ensures CanReach(s, s') && slot in s'.workers && s'.workers[slot] == Checking(m, s.served[c])
    ensures s'.rows == s.rows && s'.pending == s.pending
  {
    assert Execute(s, []) == Some(s);
    hide CanReach, Execute;
    var pods := set x | x in s.workers :: x.pod;
    var pod := Unused(pods);
    slot := Slot(pod, c);
    assert forall x :: x in s.workers ==> x.pod in pods;
    var k := Unused(s.claims.Keys);
    var s1 := Go(s, s, Claim(k, pod, m));
    var s2 := Go(s, s1, Begin(k));
    s' := Go(s, s2, Fetch(slot));
  }

  /** An article without rows can be analysed, with any answer, and what is new of the answer stored. */
  lemma Stores(s0: State, s: State, slot: Slot, batch: seq<Draft>) returns (s': State)
    requires CanReach(s0, s) && slot in s.workers && s.workers[slot].Checking? && FreshBatch(s.rows, batch)
    requires forall e :: e in s.rows ==> s.rows[e].url != s.workers[slot].url
    ensures var url := s.workers[slot].url; var stored := Stored(s.rows, url, batch);
            && CanReach(s0, s') && slot in s'.workers
            && s'.workers[slot] == Publishing(s.workers[slot].msg, IdsOf(stored))
            && s'.rows == Inserted(s.rows, url, stored)
            && (forall e :: e in s'.rows && s'.rows[e].url == url ==> e in IdsOf(stored))
    ensures s'.pending == s.pending
  {
    hide CanReach, Stored, Inserted, FreshBatch;
    var url := s.workers[slot].url;
    var s1 := Go(s0, s, Check(slot, []));
    s' := Go(s0, s1, Persist(slot, batch));
    StoredIsPart(s.rows, url, batch);
    InsertedRows(s.rows, url, Stored(s.rows, url, batch));
  }

  /**
   From any state, an un-ACKed message whose article SADI serves can be finished: ACKed, with every EntityEvent
   stored for the article announced. The rows stay as they are if there are any, else the answer's are stored.
   */
  lemma ArticlesCanBeFinished(s: State, m: MsgId, c: CleanedId, batch: seq<Draft>) returns (s': State)
    requires m in s.sent && s.sent[m] == Some(c) && m in s.pending && c in s.served && FreshBatch(s.rows, batch)
    ensures CanReach(s, s') && m !in s'.pending
    ensures forall e :: e in s'.rows && s'.rows[e].url == s.served[c] ==> e in s'.announced
    ensures s'.rows == if exists e :: e in s.rows && s.rows[e].url == s.served[c] then s.rows
                       else Inserted(s.rows, s.served[c], Stored(s.rows, s.served[c], batch))
  {
    hide CanReach, Stored, Inserted, FreshBatch;
    var url := s.served[c];
    var s1, slot := Fetches(s, m, c);
    var existing := RowsListed(s.rows, url, s.rows.Keys);
    var s2: State;
    if existing != [] {
      assert existing[0] in existing;
      s2 := Go(s, s1, Check(slot, existing));
    } else {
      assert forall e :: e in s.rows && s.rows[e].url == url ==> e in existing;
      s2 := Stores(s, s1, slot, batch);
    }
    var s3 := AnnouncesAll(s, s2, slot);
    s' := Go(s, s3, AckArticle(slot));
  }
}
