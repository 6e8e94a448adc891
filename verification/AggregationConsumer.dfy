/**
 AggregationConsumer's routing and its in-flight set `_enqueued` (app/aggregation/aggregation_consumer.py).
 Each method is what runs between two awaits, so calls for other messages may come in between. The set
 only saves work: an EntityEvent may well be queued twice, since success clears its entry before the ACK
 is sent. What the set must not do is hold an entry that nothing under way will ever clear.
 */
module AggregationConsumer {
  import opened Common
  import P = Pipeline

  datatype Reason = RetriesExhausted | Malformed

  /** What a delivered message comes to before its routing first awaits. */
  datatype Routed = DeadLettered(reason: Reason) | AlreadyInFlight | Started(k: nat)

  /** What the lookup and the wait for the group come to. */
  datatype Handover = HandedOver | NoRow | LookupFailed

  /** Where the handling of a message stands: still being routed, queued or running, or reporting its success. */
  datatype Progress = Routing | Outstanding | Acking

  type Units = map<nat, (P.Job, Progress)>

  /** Unit `k` will clear `e`. */
  predicate IsUnitOf(work: Units, k: nat, e: EntityId) {
    k in work && work[k].0.entity == e && !work[k].1.Acking?
  }

  ghost predicate InFlight(work: Units, e: EntityId) {
    exists k :: IsUnitOf(work, k, e)
  }

  /** When one unit moves on, every other EntityEvent keeps the units it has. */
  lemma OthersStayInFlight(before: Units, after: Units, k: nat, e: EntityId)
    requires InFlight(before, e) && !IsUnitOf(before, k, e)
    requires forall j :: j in before && j != k ==> j in after && after[j] == before[j]
    ensures InFlight(after, e)
  {
    var j :| IsUnitOf(before, j, e);
    assert IsUnitOf(after, j, e);
  }

  class Consumer {
    const maxRetry: nat
    var enqueued: set<EntityId>
    var pending: set<MsgId>
    var deadLetters: seq<MsgId>
    var work: Units                             // by a serial number of the unit
    var next: nat
    var queue: seq<P.Job>                       // every unit ever handed to its group, in order
    var lost: set<MsgId>                        // messages whose EntityEvent had no row

    /** Every entry of the in-flight set belongs to a unit that is being routed, queued or run. */
    ghost predicate Valid()
      reads this
    {
      && (forall e :: e in enqueued ==> InFlight(work, e))
      && (forall k :: k in work ==> k < next)
    }

    constructor (maxRetry: nat)
      ensures Valid() && this.maxRetry == maxRetry && enqueued == {} && pending == {} && queue == []
        && deadLetters == []
    {
      this.maxRetry, enqueued, pending, deadLetters, work, next, queue, lost := maxRetry, {}, {}, [], map[], 0, [], {};
    }

    /**
     `_route` and `_route_one` up to the row's lookup. `deliveries` is set on a reclaimed message. The message
     leaves the pending list here only dead-lettered.
     */
    method Route(m: MsgId, payload: Option<EntityId>, deliveries: Option<nat>, ackFails: bool) returns (routed: Routed)
      requires Valid()
      modifies this
      ensures Valid() && queue == old(queue) && lost == old(lost)
      ensures routed == DeadLettered(RetriesExhausted) <==> deliveries.Some? && deliveries.value >= maxRetry
      ensures routed == DeadLettered(Malformed) <==>
        !(deliveries.Some? && deliveries.value >= maxRetry) && payload.None?
      ensures deadLetters == if routed.DeadLettered? then old(deadLetters) + [m] else old(deadLetters)
      ensures pending == if routed.DeadLettered? && !ackFails then old(pending) - {m} else old(pending)
      ensures routed.AlreadyInFlight? ==> payload.value in old(enqueued)
      ensures routed.Started? ==> payload.value !in old(enqueued) && routed.k !in old(work)
      ensures enqueued == if routed.Started? then old(enqueued) + {payload.value} else old(enqueued)
      ensures work == if routed.Started? then old(work)[routed.k := (P.Job(m, payload.value), Routing)] else old(work)
    {
      if deliveries.Some? && deliveries.value >= maxRetry {
        DeadLetter(m, ackFails);
        return DeadLettered(RetriesExhausted);
      }
      if payload.None? {
        DeadLetter(m, ackFails);
        return DeadLettered(Malformed);
      }
      var e := payload.value;
      if e in enqueued {
        return AlreadyInFlight;
      }
      enqueued := enqueued + {e};
      work := work[next := (P.Job(m, e), Routing)];
      routed := Started(next);
      next := next + 1;
      assert IsUnitOf(work, routed.k, e);
      forall x | x in old(enqueued) ensures InFlight(work, x) {
        OthersStayInFlight(old(work), work, routed.k, x);
      }
    }

    method DeadLetter(m: MsgId, ackFails: bool)
      modifies this`deadLetters, this`pending
      ensures deadLetters == old(deadLetters) + [m]
      ensures pending == if ackFails then old(pending) else old(pending) - {m}
    {
      deadLetters := deadLetters + [m];
      if !ackFails { pending := pending - {m}; }
    }

    /**
     The rest of the routing: `stored` tells whether the row was found, None if the lookup failed or the routing was
     cancelled. Without a row the outcome is final and is reported; a failure clears the entry again.
     */
    method HandOver(k: nat, stored: Option<bool>) returns (handed: Handover)
      requires Valid() && k in work && work[k].1.Routing?
      modifies this`enqueued, this`work, this`queue, this`lost
      ensures Valid()
      ensures var job := old(work)[k].0;
              && handed == (if stored.None? then LookupFailed else if stored.value then HandedOver else NoRow)
              && enqueued == (if handed.HandedOver? then old(enqueued) else old(enqueued) - {job.entity})
              && queue == (if handed.HandedOver? then old(queue) + [job] else old(queue))
              && lost == (if handed.NoRow? then old(lost) + {job.msg} else old(lost))
              && work == (if handed.LookupFailed? then old(work) - {k}
                          else old(work)[k := (job, if handed.HandedOver? then Outstanding else Acking)])
    {
      var job := work[k].0;
      if stored.None? {
        enqueued, work := enqueued - {job.entity}, work - {k};
        handed := LookupFailed;
      } else if stored.value {
        work, queue := work[k := (job, Outstanding)], queue + [job];
        handed := HandedOver;
        assert IsUnitOf(work, k, job.entity);
      } else {
        enqueued, work, lost := enqueued - {job.entity}, work[k := (job, Acking)], lost + {job.msg};
        handed := NoRow;
      }
      forall e | e in enqueued && e != job.entity ensures InFlight(work, e) {
        OthersStayInFlight(old(work), work, k, e);
      }
    }

    /** `_on_success` up to its ACK. */
    method ReportSuccess(k: nat)
      requires Valid() && k in work && work[k].1.Outstanding?
      modifies this`enqueued, this`work
      ensures Valid() && enqueued == old(enqueued) - {old(work)[k].0.entity}
      ensures work == old(work)[k := (old(work)[k].0, Acking)]
    {
      enqueued := enqueued - {work[k].0.entity};
      work := work[k := (work[k].0, Acking)];
      forall e | e in enqueued ensures InFlight(work, e) {
        OthersStayInFlight(old(work), work, k, e);
      }
    }

    /** The ACK's reply. A failed one runs `on_failure`, which clears the entry again, whoever set it since. */
    method AckReply(k: nat, fails: bool)
      requires Valid() && k in work && work[k].1.Acking?
      modifies this`enqueued, this`work, this`pending
      ensures Valid() && work == old(work) - {k}
      ensures pending == if fails then old(pending) else old(pending) - {old(work)[k].0.msg}
      ensures enqueued == if fails then old(enqueued) - {old(work)[k].0.entity} else old(enqueued)
    {
      var job := work[k].0;
      work := work - {k};
      if fails {
        enqueued := enqueued - {job.entity};
      } else {
        pending := pending - {job.msg};
      }
      forall e | e in enqueued ensures InFlight(work, e) {
        OthersStayInFlight(old(work), work, k, e);
      }
    }

    /** `on_failure`: the message stays pending and may be routed again. */
    method ReportFailure(k: nat)
      requires Valid() && k in work && work[k].1.Outstanding?
      modifies this`enqueued, this`work
      ensures Valid() && enqueued == old(enqueued) - {old(work)[k].0.entity} && work == old(work) - {k}
    {
      enqueued := enqueued - {work[k].0.entity};
      work := work - {k};
      forall e | e in enqueued ensures InFlight(work, e) {
        OthersStayInFlight(old(work), work, k, e);
      }
    }

    /** With nothing routed, queued or run, nothing is in flight: no redelivery is ever skipped for good. */
    lemma NothingLeftInFlight()
      requires Valid()
      ensures (forall k :: k in work ==> work[k].1.Acking?) ==> enqueued == {}
    {
      if enqueued != {} {
        var e :| e in enqueued;
        var k :| IsUnitOf(work, k, e);
      }
    }
  }
}
