/**
 The sliding-window merge of one group's EntityEvents (app/aggregation/sliding_window.py). Times are
 integers in microseconds, the resolution of the source's datetimes; the clock and the fresh event id
 are parameters. Hours are compared exactly.
 */
module SlidingWindow {
  import opened Common

  const SECOND: int := 1_000_000
  const HOUR: int := 3_600 * SECOND

  datatype Config = Config(windowHours: int, maxSpanHours: int, flushIntervalS: int)

  /** One entity_events row; `id` and `createdAt` are set once it is stored. */
  datatype EntityEvent = EntityEvent(
    id: Option<EntityId>, group: GroupKey, publishedAt: Option<int>, createdAt: Option<int>)
  {
    predicate IsPersistent() { id.Some? && createdAt.Some? }

    /** Where it counts on the time axis: by its article's date if there is one, else by its row's. */
    function DatedAt(): Option<int> { if publishedAt.Some? then publishedAt else createdAt }
  }

  /** A group's active Event. `version` is aggregation_updated_at. */
  datatype Event = Event(
    eventId: EventId, group: GroupKey, firstSeen: int, lastSeen: int, version: int, ids: seq<EntityId>)
  {
    predicate IsActive() { ids != [] }
    function Span(): int { lastSeen - firstSeen }
  }

  datatype MergeError = NotActiveEvent | NotPersisted

  function Min(a: int, b: int): int { if a <= b then a else b }
  function Max(a: int, b: int): int { if a <= b then b else a }
  function Abs(a: int): int { if a < 0 then -a else a }

  /** Whether an EntityEvent dated `at` extends the active Event rather than replacing it. */
  predicate Fits(cfg: Config, active: Event, at: int) {
    && Abs(at - active.lastSeen) <= cfg.windowHours * HOUR
    && Max(at, active.lastSeen) - Min(at, active.firstSeen) < cfg.maxSpanHours * HOUR
  }

  function Extend(active: Event, id: EntityId, at: int, now: int): Event {
    active.(firstSeen := Min(active.firstSeen, at), lastSeen := Max(active.lastSeen, at),
            version := now, ids := active.ids + [id])
  }

  function MergeOrCreate(cfg: Config, active: Option<Event>, ee: EntityEvent, freshId: EventId, now: int)
    : Result<Event, MergeError>
  {
    if active.Some? && !active.value.IsActive() then Err(NotActiveEvent)
    else if !ee.IsPersistent() then Err(NotPersisted)
    else
      var at := ee.DatedAt().value;
      if active.Some? && Fits(cfg, active.value, at) then
        Ok(Extend(active.value, ee.id.value, at, now))
      else
        Ok(Event(freshId, ee.group, at, at, now, [ee.id.value]))
  }

  /** More than a window older than the newest constituent. */
  predicate IsLate(cfg: Config, active: Event, ee: EntityEvent)
    requires ee.DatedAt().Some?
  {
    active.lastSeen - ee.DatedAt().value > cfg.windowHours * HOUR
  }

  /** Python's int(): truncation towards zero. */
  function Truncate(num: int, den: int): int
    requires den > 0
  {
    if num >= 0 then num / den else -((-num) / den)
  }

  /** The time to live in seconds. */
  function TtlFor(cfg: Config, active: Event): int {
    Truncate(Min(cfg.windowHours * HOUR, cfg.maxSpanHours * HOUR - active.Span()), SECOND)
    + 2 * cfg.flushIntervalS
  }

  // ---------------------------------------------------------------- what an active Event spans

  /** The stored rows: each carries its own key as id, and the time it was stored. */
  ghost predicate WellStored(entities: map<EntityId, EntityEvent>) {
    forall e :: e in entities ==> entities[e].id == Some(e) && entities[e].IsPersistent()
  }

  function At(entities: map<EntityId, EntityEvent>, e: EntityId): int
    requires e in entities && entities[e].IsPersistent()
  {
    entities[e].DatedAt().value
  }

  /** `e` is stored and dated `at`. */
  predicate Dated(entities: map<EntityId, EntityEvent>, e: EntityId, at: int) {
    e in entities && entities[e].DatedAt() == Some(at)
  }

  /** `x` is dated after `e`, by the sliding window at most. */
  predicate Follows(cfg: Config, entities: map<EntityId, EntityEvent>, e: EntityId, x: EntityId) {
    && e in entities && entities[e].IsPersistent() && x in entities && entities[x].IsPersistent()
    && At(entities, e) < At(entities, x) <= At(entities, e) + cfg.windowHours * HOUR
  }

  /** No gap between consecutive constituents exceeds the sliding window. */
  ghost predicate Chained(cfg: Config, entities: map<EntityId, EntityEvent>, a: Event) {
    forall e, at :: e in a.ids && Dated(entities, e, at) && at < a.lastSeen ==>
      exists x :: x in a.ids && Follows(cfg, entities, e, x)
  }

  /**
   first_seen_at and last_seen_at are the minimum and maximum publication time over exactly the
   constituents, the span stays strictly below the maximum timespan, and no gap exceeds the window.
   */
  ghost predicate Spanning(cfg: Config, entities: map<EntityId, EntityEvent>, a: Event) {
    && (forall e :: e in a.ids ==>
          e in entities && entities[e].IsPersistent() && a.firstSeen <= At(entities, e) <= a.lastSeen)
    && (exists e :: e in a.ids && Dated(entities, e, a.firstSeen))
    && (exists e :: e in a.ids && Dated(entities, e, a.lastSeen))
    && (cfg.maxSpanHours > 0 ==> a.Span() < cfg.maxSpanHours * HOUR)
    && Chained(cfg, entities, a)
  }

  lemma MergeKeepsSpan(cfg: Config, entities: map<EntityId, EntityEvent>, active: Option<Event>,
                       e: EntityId, freshId: EventId, now: int)
    requires WellStored(entities) && e in entities
    requires active.Some? ==> Spanning(cfg, entities, active.value)
    ensures var r := MergeOrCreate(cfg, active, entities[e], freshId, now);
            r.Ok? && Spanning(cfg, entities, r.value)
  {
    var r := MergeOrCreate(cfg, active, entities[e], freshId, now);
    var at := At(entities, e);
    if active.Some? {
      assert active.value.IsActive() by { var w :| w in active.value.ids; }
    }
    if active.Some? && Fits(cfg, active.value, at) {
      var a := active.value;
      var u := r.value;
      assert u.ids[|u.ids| - 1] == e;
      forall x | x in u.ids
        ensures x in entities && entities[x].IsPersistent() && u.firstSeen <= At(entities, x) <= u.lastSeen
      {
        assert x in a.ids || x == e;
      }
      var lo :| lo in a.ids && Dated(entities, lo, a.firstSeen);
      var hi :| hi in a.ids && Dated(entities, hi, a.lastSeen);
      assert lo in u.ids && hi in u.ids && e in u.ids;
      var first := if at < a.firstSeen then e else lo;
      var last := if a.lastSeen < at then e else hi;
      assert Dated(entities, first, u.firstSeen) && Dated(entities, last, u.lastSeen);
      ExtendKeepsChain(cfg, entities, a, u, e, hi);
    } else {
      assert r.value.ids == [e];
      assert e in r.value.ids && Dated(entities, e, r.value.firstSeen);
    }
  }

  lemma ExtendKeepsChain(cfg: Config, entities: map<EntityId, EntityEvent>, a: Event, u: Event, e: EntityId,
                         hi: EntityId)
    requires e in entities && entities[e].IsPersistent() && Chained(cfg, entities, a)
    requires forall x :: x in a.ids ==>
               x in entities && entities[x].IsPersistent() && At(entities, x) <= a.lastSeen
    requires hi in a.ids && Dated(entities, hi, a.lastSeen) && Fits(cfg, a, At(entities, e))
    requires u.ids == a.ids + [e] && u.lastSeen == Max(a.lastSeen, At(entities, e))
    ensures Chained(cfg, entities, u)
  {
    forall x, at | x in u.ids && Dated(entities, x, at) && at < u.lastSeen
      ensures exists y :: y in u.ids && Follows(cfg, entities, x, y)
    {
      assert e in u.ids && hi in u.ids;
      if x !in a.ids {
        assert Follows(cfg, entities, x, hi);
      } else if at < a.lastSeen {
        var y :| y in a.ids && Follows(cfg, entities, x, y);
        assert y in u.ids;
      } else {
        assert Follows(cfg, entities, x, e);
      }
    }
  }

  /** Where an EntityEvent counts: at its article's publication time, or else at the time it was stored. */
  predicate CountsAt(ee: EntityEvent, at: int) {
    ee.publishedAt == Some(at) || (ee.publishedAt.None? && ee.createdAt == Some(at))
  }

  /**
   The active Event keeps its id exactly if the EntityEvent is dated within a window of its latest one, on
   either side, and every two of its dates are then less than the maximum timespan apart.
   */
  lemma ExtendsExactlyWithinWindowAndSpan(cfg: Config, active: Event, ee: EntityEvent, at: int, freshId: EventId,
                                          now: int)
    requires active.ids != [] && active.firstSeen <= active.lastSeen && freshId != active.eventId
    requires ee.IsPersistent() && CountsAt(ee, at)
    ensures var r := MergeOrCreate(cfg, Some(active), ee, freshId, now);
            && r.Ok?
            && (r.value.eventId == active.eventId <==>
                  && at - active.lastSeen <= cfg.windowHours * HOUR
                  && active.lastSeen - at <= cfg.windowHours * HOUR
                  && active.lastSeen - active.firstSeen < cfg.maxSpanHours * HOUR
                  && at - active.firstSeen < cfg.maxSpanHours * HOUR
                  && active.lastSeen - at < cfg.maxSpanHours * HOUR)
            && r.value.ids == (if r.value.eventId == active.eventId then active.ids else []) + [ee.id.value]
            && r.value.group == (if r.value.eventId == active.eventId then active.group else ee.group)
            && r.value.version == now
  {
  }

  /**
   With the window below the maximum timespan, an EntityEvent that is not late replaces the active
   Event only if it is dated strictly after that Event's latest constituent.
   */
  lemma ReplacesOnlyForward(cfg: Config, active: Event, at: int)
    requires cfg.windowHours < cfg.maxSpanHours
    requires active.Span() < cfg.maxSpanHours * HOUR
    requires active.lastSeen - at <= cfg.windowHours * HOUR
    requires !Fits(cfg, active, at)
    ensures at > active.lastSeen
  {
    assert cfg.windowHours * HOUR < cfg.maxSpanHours * HOUR;
  }

  /**
   With the window below the timespan, an EntityEvent is late exactly if merging it would start an Event
   dated no later than the active one it takes over from.
   */
  lemma LateExactlyWhenAnOlderEventWouldTakeOver(cfg: Config, active: Event, ee: EntityEvent, freshId: EventId,
                                                 now: int)
    requires 0 <= cfg.windowHours < cfg.maxSpanHours && active.IsActive() && ee.IsPersistent()
      && freshId != active.eventId
    requires 0 <= active.Span() < cfg.maxSpanHours * HOUR
    ensures var r := MergeOrCreate(cfg, Some(active), ee, freshId, now);
            r.Ok? && (IsLate(cfg, active, ee) <==>
              r.value.eventId != active.eventId && r.value.lastSeen <= active.lastSeen)
  {
    var at := ee.DatedAt().value;
    if !Fits(cfg, active, at) && !IsLate(cfg, active, ee) {
      ReplacesOnlyForward(cfg, active, at);
    }
  }

  /** No EntityEvent that is not late ever replaces an active Event without being dated after it. */
  ghost predicate ReplacementMovesForward(cfg: Config) {
    forall first, last, at :: TakesOver(cfg, first, last, at) ==> last < at
  }

  /** Dated `at`, it is not late for an active Event of these dates, and replaces it. */
  predicate TakesOver(cfg: Config, first: int, last: int, at: int) {
    && first <= last && last - first < cfg.maxSpanHours * HOUR
    && last - at <= cfg.windowHours * HOUR
    && !Fits(cfg, Window(first, last), at)
  }

  /** An active Event reduced to the dates the window looks at. */
  function Window(first: int, last: int): Event {
    Event(0, GroupKey("", "", Earnings), first, last, 0, [0])
  }

  /**
   The code never checks that the window is below the maximum timespan. For a timespan above zero that
   check is exactly what keeps a group moving forward: without it, an EntityEvent dated a whole timespan
   before the active Event's latest is not late, does not fit, and takes over the group's slot.
   */
  lemma MovesForwardExactlyIfWindowBelowSpan(cfg: Config)
    requires cfg.maxSpanHours > 0
    ensures ReplacementMovesForward(cfg) <==> cfg.windowHours < cfg.maxSpanHours
  {
    if cfg.windowHours < cfg.maxSpanHours {
      forall first, last, at | TakesOver(cfg, first, last, at) ensures last < at {
        ReplacesOnlyForward(cfg, Window(first, last), at);
      }
    } else {
      var at := -cfg.maxSpanHours * HOUR;
      assert TakesOver(cfg, 0, 0, at);
    }
  }

  /** The merge state of any Event the merge can return outlives two flush intervals, and not much more. */
  lemma TtlBounds(cfg: Config, a: Event)
    requires 0 <= cfg.windowHours && 0 <= a.Span() < cfg.maxSpanHours * HOUR
    ensures 2 * cfg.flushIntervalS <= TtlFor(cfg, a) <= cfg.windowHours * 3600 + 2 * cfg.flushIntervalS
  {
    var left := Min(cfg.windowHours * HOUR, cfg.maxSpanHours * HOUR - a.Span());
    assert 0 <= left <= cfg.windowHours * 3600 * SECOND;
    assert left / SECOND <= cfg.windowHours * 3600;
  }

  /**
   Past the grace, the time to live is the sooner of the window's end and the remaining lifespan's, cut to
   whole seconds.
   */
  lemma TtlIsTheSoonerEnd(cfg: Config, a: Event)
    requires 0 <= cfg.windowHours && a.Span() <= cfg.maxSpanHours * HOUR
    ensures var left := (TtlFor(cfg, a) - 2 * cfg.flushIntervalS) * 1_000_000;
            var window := cfg.windowHours * 3_600_000_000;
            var lifespan := cfg.maxSpanHours * 3_600_000_000 - (a.lastSeen - a.firstSeen);
            && left <= window && left <= lifespan
            && (window - left < 1_000_000 || lifespan - left < 1_000_000)
  {
    var left := Min(cfg.windowHours * HOUR, cfg.maxSpanHours * HOUR - a.Span());
    assert left == left / SECOND * SECOND + left % SECOND;
  }

  /** A merge result's span is one TtlBounds speaks about. */
  lemma SpanningSpan(cfg: Config, entities: map<EntityId, EntityEvent>, a: Event)
    requires Spanning(cfg, entities, a) && cfg.maxSpanHours > 0
    ensures 0 <= a.Span() < cfg.maxSpanHours * HOUR
  {
    var e :| e in a.ids && Dated(entities, e, a.firstSeen);
  }

  /** Both bounds hold of every result of the merge. */
  lemma MergedTtlBounds(cfg: Config, entities: map<EntityId, EntityEvent>, active: Option<Event>,
                        e: EntityId, freshId: EventId, now: int)
    requires 0 <= cfg.windowHours && 0 < cfg.maxSpanHours
    requires WellStored(entities) && e in entities
    requires active.Some? ==> Spanning(cfg, entities, active.value)
    ensures var r := MergeOrCreate(cfg, active, entities[e], freshId, now);
            && r.Ok?
            && 2 * cfg.flushIntervalS <= TtlFor(cfg, r.value) <= cfg.windowHours * 3600 + 2 * cfg.flushIntervalS
  {
    hide MergeOrCreate, Spanning, TtlFor, WellStored;
    MergeKeepsSpan(cfg, entities, active, e, freshId, now);
    var r := MergeOrCreate(cfg, active, entities[e], freshId, now);
    SpanningSpan(cfg, entities, r.value);
    TtlBounds(cfg, r.value);
  }
}
