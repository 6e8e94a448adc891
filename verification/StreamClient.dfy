/**
 A Redis stream with one consumer group, and the calls RedisStreamClient makes on it
 (app/redis/stream_client.py). Connections may fail before or after a command took effect.
 */
module StreamClient {
  import opened Common

  /** One try of an XADD: refused, written with its reply lost, or written and confirmed. */
  datatype Attempt = Unreachable | ReplyLost | Confirmed

  /** How many entries a publish appends: one for its confirmed try, and one for each lost reply before it. */
  function Copies(attempts: seq<Attempt>): (n: nat)
    requires Confirmed in attempts
    ensures 1 <= n <= |attempts|
  {
    if attempts[0].Confirmed? then 1
    else (if attempts[0].ReplyLost? then 1 else 0) + Copies(attempts[1..])
  }

  /** So many lost replies before the first confirmed try, and that try. */
  lemma {:induction false} CopiesAreLostRepliesAndOne(before: seq<Attempt>, after: seq<Attempt>)
    requires Confirmed !in before
    ensures Copies(before + [Confirmed] + after) == multiset(before)[ReplyLost] + 1
  {
    var attempts := before + [Confirmed] + after;
    if before == [] {
      assert attempts[0] == Confirmed;
    } else {
      CopiesAreLostRepliesAndOne(before[1..], after);
      assert attempts[1..] == before[1..] + [Confirmed] + after;
      assert before == [before[0]] + before[1..];
      assert multiset(before) == multiset{before[0]} + multiset(before[1..]);
    }
  }

  /** A reclaimed message: its id and how many times it has been delivered. */
  datatype Reclaimed = Reclaimed(id: MsgId, deliveries: nat)

  class RedisStream<F(==)> {
    var entries: seq<F>                  // an entry's id is its place
    var delivered: nat                   // how far the consumer group has read
    var pending: map<MsgId, nat>         // delivered and not ACKed, with the number of deliveries
    ghost var acked: set<MsgId>

    /** Every entry is exactly one of: not read yet, pending, ACKed. */
    ghost predicate Valid()
      reads this
    {
      && delivered <= |entries|
      && (forall k :: k in pending ==> pending[k] >= 1)
      && (forall k: MsgId :: k < delivered <==> k in pending || k in acked)
      && pending.Keys !! acked
    }

    constructor ()
      ensures Valid() && entries == [] && pending == map[] && delivered == 0 && acked == {}
    {
      entries, pending, delivered, acked := [], map[], 0, {};
    }

    /** `publish`: tries until one is confirmed. A lost reply leaves one more copy behind. */
    method Publish(fields: F, attempts: seq<Attempt>) returns (id: MsgId)
      requires Valid() && Confirmed in attempts
      modifies this`entries
      ensures Valid() && entries == old(entries) + seq(Copies(attempts), _ => fields)
      ensures id == |entries| - 1
    {
      var k := 0;
      while true
        invariant 0 <= k < |attempts| && Confirmed in attempts[k..]
        invariant old(entries) <= entries && delivered <= |old(entries)|
        invariant |entries| - |old(entries)| + Copies(attempts[k..]) == Copies(attempts)
        invariant forall i :: |old(entries)| <= i < |entries| ==> entries[i] == fields
        decreases |attempts| - k
      {
        if attempts[k].Confirmed? {
          id := |entries|;
          entries := entries + [fields];
          assert entries == old(entries) + seq(Copies(attempts), _ => fields);
          return;
        }
        if attempts[k].ReplyLost? {
          entries := entries + [fields];
        }
        assert attempts[k..][1..] == attempts[k + 1..];
        k := k + 1;
      }
    }

    /** `read_from`: the next entries in order, up to `count`, each delivered for the first time. */
    method ReadFrom(count: nat) returns (ids: seq<MsgId>)
      requires Valid()
      modifies this`delivered, this`pending
      ensures Valid()
      ensures |ids| == if count <= |entries| - old(delivered) then count else |entries| - old(delivered)
      ensures forall i :: 0 <= i < |ids| ==> ids[i] == old(delivered) + i && ids[i] !in old(pending)
      ensures delivered == old(delivered) + |ids|
      ensures forall k: MsgId :: k in pending <==> k in old(pending) || old(delivered) <= k < delivered
      ensures forall k :: k in pending ==> pending[k] == if k in old(pending) then old(pending)[k] else 1
    {
      ids := [];
      while |ids| < count && delivered < |entries|
        invariant Valid() && |ids| <= count && delivered == old(delivered) + |ids|
        invariant forall i :: 0 <= i < |ids| ==> ids[i] == old(delivered) + i
        invariant forall k: MsgId :: k in pending <==> k in old(pending) || old(delivered) <= k < delivered
        invariant forall k :: k in pending ==> pending[k] == if k in old(pending) then old(pending)[k] else 1
        decreases |entries| - delivered
      {
        ids := ids + [delivered];
        pending := pending[delivered := 1];
        delivered := delivered + 1;
      }
    }

    /** `ack`. */
    method Ack(id: MsgId)
      requires Valid()
      modifies this`pending, this`acked
      ensures Valid() && pending == old(pending) - {id}
      ensures acked == if id in old(pending) then old(acked) + {id} else old(acked)
    {
      acked := if id in pending then acked + {id} else acked;
      pending := pending - {id};
    }

    /** The XAUTOCLAIM: claims the idle messages that are pending, up to `count`, each delivered once more. */
    method Claim(idle: seq<MsgId>, count: nat) returns (ids: seq<MsgId>)
      requires Valid() && Distinct(idle)
      modifies this`pending
      ensures Valid() && pending.Keys == old(pending).Keys && |ids| <= count && |ids| <= |idle|
      ensures forall k :: k in ids ==> k in idle && k in pending && pending[k] == old(pending)[k] + 1
      ensures forall k :: k in pending && k !in ids ==> pending[k] == old(pending)[k]
      ensures |ids| == count || forall k :: k in idle && k in pending ==> k in ids
    {
      ids := [];
      for i := 0 to |idle|
        invariant Valid() && |ids| <= count && pending.Keys == old(pending).Keys
        invariant forall k :: k in ids ==> k in idle[..i] && k in pending && pending[k] == old(pending)[k] + 1
        invariant forall k :: k in pending && k !in ids ==> pending[k] == old(pending)[k]
        invariant |ids| <= i && (|ids| == count || forall k :: k in idle[..i] && k in pending ==> k in ids)
      {
        if |ids| < count && idle[i] in pending {
          assert idle[i] !in idle[..i];
          ids := ids + [idle[i]];
          pending := pending[idle[i] := pending[idle[i]] + 1];
        }
      }
    }

    /**
     `autoclaim`: claims idle messages and returns each with its delivery count. `ackedSince` are ACKed
     between the claim and the count, and are left out.
     */
    method Autoclaim(idle: seq<MsgId>, count: nat, ackedSince: set<MsgId>) returns (claimed: seq<Reclaimed>)
      requires Valid() && Distinct(idle)
      modifies this`pending, this`acked
      ensures Valid() && pending.Keys == old(pending).Keys - ackedSince && |claimed| <= count
      ensures forall c :: c in claimed ==>
                c.id in idle && c.id in pending && c.deliveries == pending[c.id] == old(pending)[c.id] + 1
      ensures forall k :: k in pending && (forall c :: c in claimed ==> c.id != k) ==> pending[k] == old(pending)[k]
      ensures count > |idle| ==> forall k :: k in idle && k in pending ==> Reclaimed(k, pending[k]) in claimed
    {
      var ids := Claim(idle, count);
      acked := acked + (pending.Keys * ackedSince);
      pending := pending - ackedSince;
      claimed := [];
      for i := 0 to |ids|
        invariant |claimed| <= i
        invariant forall c :: c in claimed ==> c.id in ids && c.id in pending && c.deliveries == pending[c.id]
        invariant forall j :: 0 <= j < i && ids[j] in pending ==> Reclaimed(ids[j], pending[ids[j]]) in claimed
      {
        if ids[i] in pending {
          claimed := claimed + [Reclaimed(ids[i], pending[ids[i]])];
        }
      }
      forall k | k in pending && k in ids ensures exists c :: c in claimed && c.id == k {
        var j :| 0 <= j < |ids| && ids[j] == k;
        assert Reclaimed(ids[j], pending[ids[j]]) in claimed;
      }
    }
  }

  /** `dead_letter`: publishes the copy, then ACKs; the ACK may fail. */
  method DeadLetter<F(==)>(stream: RedisStream<F>, deadLetters: RedisStream<MsgId>, id: MsgId,
                           attempts: seq<Attempt>, ackFails: bool)
    requires stream.Valid() && deadLetters.Valid() && Confirmed in attempts
    requires (stream as object) != deadLetters
    modifies stream`pending, stream`acked, deadLetters`entries
    ensures stream.Valid() && deadLetters.Valid()
    ensures deadLetters.entries == old(deadLetters.entries) + seq(Copies(attempts), _ => id)
    ensures stream.pending == if ackFails then old(stream.pending) else old(stream.pending) - {id}
    ensures id !in stream.pending ==> id in deadLetters.entries || id !in old(stream.pending)
  {
    var copy := deadLetters.Publish(id, attempts);
    assert deadLetters.entries[copy] == id;
    if !ackFails {
      stream.Ack(id);
    }
  }
}
