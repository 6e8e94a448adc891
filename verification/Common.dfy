/** Identifiers and small wrappers shared by every model. UUIDs and stream entry ids are natural numbers. */
module Common {
  type EntityId = nat
  type EventId = nat
  type MsgId = nat

  datatype Option<+T> = None | Some(value: T)

  datatype Result<+T, +E> = Ok(value: T) | Err(error: E)

  datatype EventType =
    | Earnings | Buyback | MA | Regulatory | ManagementChange
    | AnalystRating | Dividend | GeneralAnnouncement

  /** EntityEvents merge only with others of their own stock and event type. */
  datatype GroupKey = GroupKey(exchange: string, stockCode: string, eventType: EventType)

  predicate Distinct<T(==)>(s: seq<T>) {
    forall i, j :: 0 <= i < j < |s| ==> s[i] != s[j]
  }

  /** There is always one more identifier. */
  lemma {:induction false} Unused(used: set<nat>) returns (x: nat)
    ensures x !in used && forall u :: u in used ==> u < x
  {
    if used == {} {
      x := 0;
    } else {
      var u :| u in used;
      var y := Unused(used - {u});
      x := if u < y then y else u + 1;
      assert forall w :: w in used ==> w == u || w in used - {u};
    }
  }
}
