/**
 Keys with a TTL and periodic flushes, in time. It justifies the one assumption the pipeline makes about
 expiry: no key expires before its latest merge is persisted, however many flushes fail, exactly if some
 flush always succeeds within two flush intervals of the start of the last one that did. Redis drops a
 key once the clock is past its expiry.
 */
module TimedStore {
  import opened Common
  import opened SlidingWindow

  datatype Key = Key(event: Event, mergedAt: int, expiresAt: int)

  /** A flush in progress: when it started, and the Events there at that moment. */
  datatype Scan = Scan(start: int, events: map<GroupKey, Event>)

  datatype State = State(
    now: int,
    keys: map<GroupKey, Key>,
    stored: map<EventId, int>,                   // the version of each events row
    lastDone: int,                               // when the last flush that succeeded started
    scan: Option<Scan>)                          // the flush in progress

  datatype Action =
    | Merge(g: GroupKey, updated: Event)
    | Persist(ev: EventId, version: int)         // a replaced Event
    | FlushStarts
    | FlushEnds(stored: map<EventId, int>)
    | FlushFails(stored: map<EventId, int>)      // whatever it stored before it failed
    | Expire(g: GroupKey)
    | Tick(d: int)

  predicate StoredAt(stored: map<EventId, int>, a: Event) {
    a.eventId in stored && stored[a.eventId] >= a.version
  }

  ghost predicate Forward(stored: map<EventId, int>, stored': map<EventId, int>) {
    forall ev :: ev in stored ==> ev in stored' && stored[ev] <= stored'[ev]
  }

  /** The flush interval in microseconds. */
  function Interval(cfg: Config): int { cfg.flushIntervalS * SECOND }

  ghost predicate Enabled(cfg: Config, bound: int, s: State, a: Action) {
    match a
    case Merge(g, u) => 0 <= u.Span() < cfg.maxSpanHours * HOUR
    case Persist(ev, v) => ev in s.stored ==> s.stored[ev] <= v
    case FlushStarts => s.scan.None?
    // it stored, for every Event it found at its start, that version or a newer one
    case FlushEnds(stored) =>
      && s.scan.Some? && Forward(s.stored, stored)
      && forall g :: g in s.scan.value.events ==> StoredAt(stored, s.scan.value.events[g])
    case FlushFails(stored) => s.scan.Some? && Forward(s.stored, stored)
    case Expire(g) => g in s.keys && s.now > s.keys[g].expiresAt
    // a flush succeeds within `bound` of the start of the last successful one
    case Tick(d) => d >= 0 && s.now + d <= s.lastDone + bound
  }

  function EventsOf(keys: map<GroupKey, Key>): map<GroupKey, Event> {
    map g | g in keys :: keys[g].event
  }

  function Apply(cfg: Config, bound: int, s: State, a: Action): State
    requires Enabled(cfg, bound, s, a)
  {
    match a
    case Merge(g, u) => s.(keys := s.keys[g := Key(u, s.now, s.now + TtlFor(cfg, u) * SECOND)])
    case Persist(ev, v) => s.(stored := s.stored[ev := v])
    case FlushStarts => s.(scan := Some(Scan(s.now, EventsOf(s.keys))))
    case FlushEnds(stored) => s.(stored := stored, lastDone := s.scan.value.start, scan := None)
    case FlushFails(stored) => s.(stored := stored, scan := None)
    case Expire(g) => s.(keys := s.keys - {g})
    case Tick(d) => s.(now := s.now + d)
  }

  ghost predicate IsRun(cfg: Config, bound: int, states: seq<State>, actions: seq<Action>) {
    && |states| == |actions| + 1
    && (exists start :: states[0] == State(start, map[], map[], start, None))
    && forall i :: 0 <= i < |actions| ==>
         Enabled(cfg, bound, states[i], actions[i]) && states[i + 1] == Apply(cfg, bound, states[i], actions[i])
  }

  /** A key lives two intervals from its merge, and is persisted unless merged since the last successful flush began. */
  ghost predicate InTime(cfg: Config, s: State, g: GroupKey)
    requires g in s.keys
  {
    && s.keys[g].mergedAt <= s.now
    && s.keys[g].mergedAt + 2 * Interval(cfg) <= s.keys[g].expiresAt
    && s.keys[g].expiresAt == s.keys[g].mergedAt + TtlFor(cfg, s.keys[g].event) * SECOND
    && 0 <= s.keys[g].event.Span() < cfg.maxSpanHours * HOUR
    && (StoredAt(s.stored, s.keys[g].event) || s.lastDone <= s.keys[g].mergedAt)
    && (s.scan.Some? ==>
          || s.scan.value.start <= s.keys[g].mergedAt
          || (g in s.scan.value.events && s.scan.value.events[g] == s.keys[g].event))
  }

  ghost predicate Inv(cfg: Config, bound: int, s: State) {
    && s.now <= s.lastDone + bound
    && (s.scan.Some? ==> s.lastDone <= s.scan.value.start <= s.now)
    && s.lastDone <= s.now
    && forall g :: g in s.keys ==> InTime(cfg, s, g)
  }

  lemma StepKeeps(cfg: Config, bound: int, s: State, a: Action)
    requires 0 <= cfg.windowHours && 0 <= bound
    requires Inv(cfg, bound, s) && Enabled(cfg, bound, s, a)
    ensures Inv(cfg, bound, Apply(cfg, bound, s, a))
  {
    hide TtlFor;
    var s' := Apply(cfg, bound, s, a);
    if a.Merge? { TtlBounds(cfg, a.updated); }
    forall g | g in s'.keys ensures InTime(cfg, s', g) {
      assert g in s.keys ==> InTime(cfg, s, g);
    }
  }

  lemma {:induction false} RunKeeps(cfg: Config, bound: int, states: seq<State>, actions: seq<Action>, i: nat)
    requires 0 <= cfg.windowHours && 0 <= bound
    requires IsRun(cfg, bound, states, actions) && i < |states|
    ensures Inv(cfg, bound, states[i])
  {
    hide Enabled, Apply;
    if i == 0 {
    } else {
      RunKeeps(cfg, bound, states, actions, i - 1);
      StepKeeps(cfg, bound, states[i - 1], actions[i - 1]);
    }
  }

  /** The key may expire, and its version is not persisted. */
  ghost predicate ExpiresUnpersisted(s: State, g: GroupKey) {
    g in s.keys && s.now > s.keys[g].expiresAt && !StoredAt(s.stored, s.keys[g].event)
  }

  /** While the bound is two intervals or less, a key that may expire holds a version already persisted. */
  lemma NoKeyExpiresUnpersisted(cfg: Config, bound: int, states: seq<State>, actions: seq<Action>, i: nat, g: GroupKey)
    requires 0 <= cfg.windowHours && 0 <= bound <= 2 * Interval(cfg)
    requires IsRun(cfg, bound, states, actions) && i < |states|
    ensures !ExpiresUnpersisted(states[i], g)
  {
    RunKeeps(cfg, bound, states, actions, i);
    if g in states[i].keys { assert InTime(cfg, states[i], g); }
  }

  ghost predicate LosesKey(cfg: Config, bound: int, states: seq<State>, actions: seq<Action>, i: nat, g: GroupKey) {
    IsRun(cfg, bound, states, actions) && i < |states| && ExpiresUnpersisted(states[i], g)
  }

  /** No run with this bound lets a key expire unpersisted. */
  ghost predicate KeysLast(cfg: Config, bound: int) {
    forall states, actions, i: nat, g :: !LosesKey(cfg, bound, states, actions, i, g)
  }

  /** An Event that spans all but a microsecond of the maximum has no more than two intervals to live. */
  lemma ShortestTtl(cfg: Config, a: Event)
    requires 0 <= cfg.windowHours && a.Span() == cfg.maxSpanHours * HOUR - 1
    ensures TtlFor(cfg, a) == 2 * cfg.flushIntervalS
  {
    var left := Min(cfg.windowHours * HOUR, cfg.maxSpanHours * HOUR - a.Span());
    assert left == 0 || left == 1;
    assert 0 / SECOND == 0 && 1 / SECOND == 0;
  }

  /** With a longer bound, such an Event merged as a flush starts expires before the next flush that succeeds. */
  lemma LateFlushLosesKey(cfg: Config, bound: int)
    requires 0 <= cfg.windowHours && 0 < cfg.maxSpanHours && 0 <= cfg.flushIntervalS && bound > 2 * Interval(cfg)
    ensures !KeysLast(cfg, bound)
  {
    var g := GroupKey("HKEX", "00700", Earnings);
    var a := Event(1, g, 0, cfg.maxSpanHours * HOUR - 1, 1, [1]);
    ShortestTtl(cfg, a);
    hide TtlFor;
    var s0 := State(0, map[], map[], 0, None);
    var s1 := Apply(cfg, bound, s0, Merge(g, a));
    var d := 2 * Interval(cfg) + 1;
    var s2 := Apply(cfg, bound, s1, Tick(d));
    var states, actions := [s0, s1, s2], [Merge(g, a), Tick(d)];
    assert IsRun(cfg, bound, states, actions);
    assert ExpiresUnpersisted(s2, g);
    assert LosesKey(cfg, bound, states, actions, 2, g);
  }

  /** Two flush intervals are the exact bound. */
  lemma KeysLastExactlyForTwoIntervals(cfg: Config, bound: int)
    requires 0 <= cfg.windowHours && 0 < cfg.maxSpanHours && 0 <= cfg.flushIntervalS && 0 <= bound
    ensures KeysLast(cfg, bound) <==> bound <= 2 * Interval(cfg)
  {
    if bound <= 2 * Interval(cfg) {
      hide IsRun, ExpiresUnpersisted;
      forall states, actions, i: nat, g ensures !LosesKey(cfg, bound, states, actions, i, g) {
        if LosesKey(cfg, bound, states, actions, i, g) {
          NoKeyExpiresUnpersisted(cfg, bound, states, actions, i, g);
        }
      }
    } else {
      LateFlushLosesKey(cfg, bound);
    }
  }

  // ----- A key outlives whatever its Event could still take in -----

  /** The key may expire, and an EntityEvent dated at this moment would still extend its Event. */
  ghost predicate ExpiresGrowing(cfg: Config, s: State, g: GroupKey, ee: EntityEvent, freshId: EventId, v: int) {
    && g in s.keys && s.now > s.keys[g].expiresAt
    && ee.IsPersistent() && CountsAt(ee, s.now)
    && var a := s.keys[g].event; var r := MergeOrCreate(cfg, Some(a), ee, freshId, v);
       freshId != a.eventId && r.Ok? && r.value.eventId == a.eventId
  }

  /** No run lets that happen to an Event whose latest EntityEvent was dated no more than `lead` ahead of its merge. */
  ghost predicate KeysOutliveWindows(cfg: Config, lead: int) {
    forall bound, states, actions, i: nat, g, ee, freshId, v ::
      !DropsGrowing(cfg, lead, bound, states, actions, i, g, ee, freshId, v)
  }

  ghost predicate DropsGrowing(cfg: Config, lead: int, bound: int, states: seq<State>, actions: seq<Action>, i: nat,
                               g: GroupKey, ee: EntityEvent, freshId: EventId, v: int)
  {
    && 0 <= bound && IsRun(cfg, bound, states, actions) && i < |states|
    && ExpiresGrowing(cfg, states[i], g, ee, freshId, v)
    && states[i].keys[g].event.lastSeen - states[i].keys[g].mergedAt <= lead
  }

  /** The last moment at which an EntityEvent of that moment would extend an Event, against its key's expiry. */
  lemma TtlCoversTheWindow(cfg: Config, k: Key, at: int)
    requires 0 <= cfg.windowHours && 0 <= k.event.Span() < cfg.maxSpanHours * HOUR
    requires k.expiresAt == k.mergedAt + TtlFor(cfg, k.event) * SECOND
    requires k.event.lastSeen - k.mergedAt <= 2 * Interval(cfg) - SECOND + 2
    requires at - k.event.lastSeen <= cfg.windowHours * HOUR && at - k.event.firstSeen < cfg.maxSpanHours * HOUR
    ensures at <= k.expiresAt
  {
    TtlIsTheSoonerEnd(cfg, k.event);
    hide TtlFor;
  }

  /** An Event just short of the maximum timespan, dated further ahead of its merge, whose key goes too soon. */
  lemma DatedAheadIsDropped(cfg: Config, lead: int)
    requires 0 < cfg.windowHours && 0 < cfg.maxSpanHours && 0 <= cfg.flushIntervalS
    requires lead > 2 * Interval(cfg) - SECOND + 2
    ensures !KeysOutliveWindows(cfg, lead)
  {
    var g, longest := GroupKey("HKEX", "00700", Earnings), cfg.maxSpanHours * HOUR;
    var a := Event(1, g, 0, longest - SECOND + 1, 1, [1]);
    var merged, at := a.lastSeen - lead, longest - 1;
    assert (SECOND - 1) / SECOND == 0;
    assert TtlFor(cfg, a) == 2 * cfg.flushIntervalS;
    hide TtlFor;
    var bound := at - merged;
    var s0 := State(merged, map[], map[], merged, None);
    var s1 := Apply(cfg, bound, s0, Merge(g, a));
    var s2 := Apply(cfg, bound, s1, Tick(bound));
    var states, actions := [s0, s1, s2], [Merge(g, a), Tick(bound)];
    assert IsRun(cfg, bound, states, actions);
    var ee := EntityEvent(Some(2), g, Some(at), Some(0));
    ExtendsExactlyWithinWindowAndSpan(cfg, a, ee, at, 2, 2);
    assert ExpiresGrowing(cfg, s2, g, ee, 2, 2);
    assert DropsGrowing(cfg, lead, bound, states, actions, 2, g, ee, 2, 2);
  }

  /**
   Keys outlive whatever their Events could still take in exactly as long as no EntityEvent is dated further
   ahead of its merge than two flush intervals, less the second that cutting the TTL to whole seconds may cost.
   */
  lemma KeysOutliveWindowsExactlyWithinGrace(cfg: Config, lead: int)
    requires 0 < cfg.windowHours && 0 < cfg.maxSpanHours && 0 <= cfg.flushIntervalS
    ensures KeysOutliveWindows(cfg, lead) <==> lead <= 2 * cfg.flushIntervalS * 1_000_000 - 999_998
  {
    if lead <= 2 * Interval(cfg) - SECOND + 2 {
      hide IsRun, MergeOrCreate, TtlFor, CountsAt;
      forall bound, states: seq<State>, actions, i: nat, g, ee, freshId, v
        ensures !DropsGrowing(cfg, lead, bound, states, actions, i, g, ee, freshId, v)
      {
        if DropsGrowing(cfg, lead, bound, states, actions, i, g, ee, freshId, v) {
          RunKeeps(cfg, bound, states, actions, i);
          assert InTime(cfg, states[i], g);
          var k := states[i].keys[g];
          ExtendingIsInReach(cfg, k.event, ee, states[i].now, freshId, v);
          TtlCoversTheWindow(cfg, k, states[i].now);
        }
      }
    } else {
      DatedAheadIsDropped(cfg, lead);
    }
  }

  lemma ExtendingIsInReach(cfg: Config, a: Event, ee: EntityEvent, at: int, freshId: EventId, v: int)
    requires a.firstSeen <= a.lastSeen && freshId != a.eventId && ee.IsPersistent() && CountsAt(ee, at)
    requires var r := MergeOrCreate(cfg, Some(a), ee, freshId, v); r.Ok? && r.value.eventId == a.eventId
    ensures at - a.lastSeen <= cfg.windowHours * HOUR && at - a.firstSeen < cfg.maxSpanHours * HOUR
  {
    assert a.ids != [];
    hide MergeOrCreate;
    ExtendsExactlyWithinWindowAndSpan(cfg, a, ee, at, freshId, v);
  }
}
