/**
 Redis's active Events, one hash per group under a key that spells out the group, each kept for a time to
 live (app/aggregation/event_aggregation_store.py). The group is not among the hash's fields: reading an
 Event back takes it from the key.
 */
module AggregationStore {
  import opened Common
  import opened SlidingWindow

  // ----- The keys -----

  function TypeName(t: EventType): string {
    match t
    case Earnings => "EARNINGS"
    case Buyback => "BUYBACK"
    case MA => "MA"
    case Regulatory => "REGULATORY"
    case ManagementChange => "MANAGEMENT_CHANGE"
    case AnalystRating => "ANALYST_RATING"
    case Dividend => "DIVIDEND"
    case GeneralAnnouncement => "GENERAL_ANNOUNCEMENT"
  }

  /** EventTypeEnum(name), which raises for any other name. */
  function TypeOf(name: string): Option<EventType> {
    if name == "EARNINGS" then Some(Earnings)
    else if name == "BUYBACK" then Some(Buyback)
    else if name == "MA" then Some(MA)
    else if name == "REGULATORY" then Some(Regulatory)
    else if name == "MANAGEMENT_CHANGE" then Some(ManagementChange)
    else if name == "ANALYST_RATING" then Some(AnalystRating)
    else if name == "DIVIDEND" then Some(Dividend)
    else if name == "GENERAL_ANNOUNCEMENT" then Some(GeneralAnnouncement)
    else None
  }

  lemma TypeRoundTrip(t: EventType)
    ensures TypeOf(TypeName(t)) == Some(t) && ':' !in TypeName(t)
  {
    var name := TypeName(t);
    assert |"EARNINGS"| == 8 && |"BUYBACK"| == 7 && |"MA"| == 2 && |"REGULATORY"| == 10 && |"MANAGEMENT_CHANGE"| == 17
        && |"ANALYST_RATING"| == 14 && |"DIVIDEND"| == 8 && |"GENERAL_ANNOUNCEMENT"| == 20;
    assert "EARNINGS"[0] != "DIVIDEND"[0];
  }

  /** `_get_key`. */
  function KeyOf(g: GroupKey): string {
    "agg" + ":" + ("event" + ":" + (g.exchange + ":" + (g.stockCode + ":" + TypeName(g.eventType))))
  }

  /** key.split(":"). */
  function Parts(s: string): (parts: seq<string>)
    ensures parts != []
  {
    if s == [] then [[]]
    else
      var rest := Parts(s[1..]);
      if s[0] == ':' then [[]] + rest else [[s[0]] + rest[0]] + rest[1..]
  }

  /** The group a scanned key names; None where the scan raises. */
  function GroupOf(key: string): Option<GroupKey> {
    var parts := Parts(key);
    if |parts| == 5 && TypeOf(parts[4]).Some? then Some(GroupKey(parts[2], parts[3], TypeOf(parts[4]).value)) else None
  }

  /** Neither part of the group contains the separator. */
  predicate Plain(g: GroupKey) {
    ':' !in g.exchange && ':' !in g.stockCode
  }

  function Colons(s: string): nat {
    if s == [] then 0 else (if s[0] == ':' then 1 else 0) + Colons(s[1..])
  }

  lemma {:induction false} PartsCount(s: string)
    ensures |Parts(s)| == Colons(s) + 1
  {
    if s == [] {
    } else {
      PartsCount(s[1..]);
    }
  }

  lemma {:induction false} ColonsAdd(a: string, b: string)
    ensures Colons(a + b) == Colons(a) + Colons(b)
  {
    if a == [] {
      assert a + b == b;
    } else {
      ColonsAdd(a[1..], b);
      assert (a + b)[1..] == a[1..] + b;
    }
  }

  lemma {:induction false} ColonsCount(s: string)
    ensures Colons(s) == 0 <==> ':' !in s
  {
    if s == [] {
    } else {
      ColonsCount(s[1..]);
      assert ':' in s <==> s[0] == ':' || ':' in s[1..];
    }
  }

  lemma {:induction false} PlainIsOnePart(a: string)
    requires ':' !in a
    ensures Parts(a) == [a]
  {
    if a == [] {
    } else {
      assert a[0] in a && forall c :: c in a[1..] ==> c in a;
      PlainIsOnePart(a[1..]);
      assert [a[0]] + a[1..] == a;
    }
  }

  lemma {:induction false} FirstPart(a: string, b: string)
    requires ':' !in a
    ensures Parts(a + ":" + b) == [a] + Parts(b)
  {
    var s := a + ":" + b;
    if a == [] {
      assert s[1..] == b;
    } else {
      assert a[0] in a && forall c :: c in a[1..] ==> c in a;
      FirstPart(a[1..], b);
      assert s[1..] == a[1..] + ":" + b;
      assert [a[0]] + a[1..] == a;
    }
  }

  /** A key read back names its group exactly if the group is plain; else the scan raises on it. */
  lemma KeyRoundTrip(g: GroupKey)
    ensures GroupOf(KeyOf(g)) == if Plain(g) then Some(g) else None
  {
    hide Parts, Colons, TypeOf, TypeName;
    TypeRoundTrip(g.eventType);
    if Plain(g) {
      PlainKeyParts(g);
    } else {
      OtherKeyParts(g);
    }
  }

  lemma PlainKeyParts(g: GroupKey)
    requires Plain(g)
    ensures Parts(KeyOf(g)) == ["agg", "event", g.exchange, g.stockCode, TypeName(g.eventType)]
  {
    hide Parts, TypeName;
    TypeRoundTrip(g.eventType);
    var t := TypeName(g.eventType);
    PlainIsOnePart(t);
    FirstPart(g.stockCode, t);
    FirstPart(g.exchange, g.stockCode + ":" + t);
    FirstPart("event", g.exchange + ":" + (g.stockCode + ":" + t));
    FirstPart("agg", "event" + ":" + (g.exchange + ":" + (g.stockCode + ":" + t)));
  }

  lemma OtherKeyParts(g: GroupKey)
    requires !Plain(g)
    ensures |Parts(KeyOf(g))| > 5
  {
    hide Parts, TypeName;
    var t := TypeName(g.eventType);
    var tail := g.stockCode + ":" + t;
    FirstPart("agg", "event" + ":" + (g.exchange + ":" + tail));
    FirstPart("event", g.exchange + ":" + tail);
    PartsCount(g.exchange + ":" + tail);
    ColonsAdd(g.exchange + ":", tail);
    ColonsAdd(g.exchange, ":");
    ColonsAdd(g.stockCode + ":", t);
    ColonsAdd(g.stockCode, ":");
    ColonsCount(g.exchange);
    ColonsCount(g.stockCode);
    assert ":"[1..] == "" && Colons("") == 0 && Colons(":") == 1;
  }

  /** No other group shares a plain group's key. */
  lemma KeysDiffer(g: GroupKey, h: GroupKey)
    requires Plain(g)
    ensures KeyOf(g) == KeyOf(h) <==> g == h
  {
    hide KeyOf, GroupOf;
    KeyRoundTrip(g);
    KeyRoundTrip(h);
  }

  // ----- The store -----

  /** The hash of an active Event. */
  datatype Fields = Fields(eventId: EventId, firstSeen: int, lastSeen: int, version: int, ids: seq<EntityId>)

  datatype Kept = Kept(fields: Fields, ttl: int)

  /** `_decode`. */
  function Decode(g: GroupKey, f: Fields): Event {
    Event(f.eventId, g, f.firstSeen, f.lastSeen, f.version, f.ids)
  }

  function Get(kept: map<string, Kept>, g: GroupKey): Option<Event> {
    if KeyOf(g) in kept then Some(Decode(g, kept[KeyOf(g)].fields)) else None
  }

  /** `found` lists the active Events of the groups whose keys have been read, all plain. */
  ghost predicate FoundSoFar(kept: map<string, Kept>, unread: set<string>, found: seq<Event>) {
    && (forall g :: KeyOf(g) in kept && KeyOf(g) !in unread ==> Plain(g))
    && (forall a :: a in found <==> exists g :: Get(kept, g) == Some(a) && KeyOf(g) !in unread)
  }

  /** Reading one more key that names group `h`, and no other, finds its Event. */
  lemma OneMoreKey(kept: map<string, Kept>, unread: set<string>, found: seq<Event>, h: GroupKey)
    requires FoundSoFar(kept, unread, found) && KeyOf(h) in unread && Plain(h)
    ensures FoundSoFar(kept, unread - {KeyOf(h)},
                       if KeyOf(h) in kept then found + [Decode(h, kept[KeyOf(h)].fields)] else found)
  {
    hide KeyOf;
    var unread' := unread - {KeyOf(h)};
    forall g | KeyOf(g) == KeyOf(h) ensures g == h { KeysDiffer(h, g); }
    if KeyOf(h) in kept {
      var x := Decode(h, kept[KeyOf(h)].fields);
      forall a ensures a in found + [x] <==> exists g :: Get(kept, g) == Some(a) && KeyOf(g) !in unread' {
        if a in found {
          var g :| Get(kept, g) == Some(a) && KeyOf(g) !in unread;
          assert KeyOf(g) !in unread';
        }
        if a == x { assert Get(kept, h) == Some(a) && KeyOf(h) !in unread'; }
      }
    } else {
      ExpiredKey(kept, unread, found, KeyOf(h));
    }
  }

  lemma ExpiredKey(kept: map<string, Kept>, unread: set<string>, found: seq<Event>, key: string)
    requires FoundSoFar(kept, unread, found) && key !in kept
    ensures FoundSoFar(kept, unread - {key}, found)
  {
    hide KeyOf;
    forall a ensures a in found <==> exists g :: Get(kept, g) == Some(a) && KeyOf(g) !in unread - {key} {
      if a in found {
        var g :| Get(kept, g) == Some(a) && KeyOf(g) !in unread;
        assert KeyOf(g) !in unread - {key};
      }
    }
  }

  class EventAggregationStore {
    var kept: map<string, Kept>

    /** Every key was written for some group. */
    ghost predicate Valid()
      reads this
    {
      forall key :: key in kept ==> exists g :: KeyOf(g) == key
    }

    constructor ()
      ensures Valid() && kept == map[]
    {
      kept := map[];
    }

    /** `get_active_event`. */
    function Lookup(g: GroupKey): Option<Event>
      reads this
    {
      Get(kept, g)
    }

    function TtlOf(g: GroupKey): Option<int>
      reads this
    {
      if KeyOf(g) in kept then Some(kept[KeyOf(g)].ttl) else None
    }

    /**
     `upsert_active_event`: the Event is what its group's lookup gives from now on, and no other plain group's changes.
     */
    method UpsertActiveEvent(a: Event, ttl: int)
      requires Valid()
      modifies this
      ensures Valid() && Lookup(a.group) == Some(a) && TtlOf(a.group) == Some(ttl)
      ensures forall g :: Plain(g) && g != a.group ==> Lookup(g) == old(Lookup(g)) && TtlOf(g) == old(TtlOf(g))
    {
      hide KeyOf;
      var fields := Fields(a.eventId, a.firstSeen, a.lastSeen, a.version, a.ids);
      kept := kept[KeyOf(a.group) := Kept(fields, ttl)];
      forall g | Plain(g) && g != a.group ensures KeyOf(g) != KeyOf(a.group) {
        KeysDiffer(g, a.group);
      }
    }

    /**
     `scan_all`: scans the keys, then reads each one; some may have expired since the scan. It returns every group's
     active Event, unless a key that is still there names a group that is not plain, when it raises.
     */
    method ScanAll(expired: set<string>) returns (events: Option<seq<Event>>)
      requires Valid()
      modifies this
      ensures Valid() && kept == old(kept) - expired
      ensures events.Some? <==> forall g :: Lookup(g).Some? ==> Plain(g)
      ensures events.Some? ==> forall a :: a in events.value <==> exists g :: Lookup(g) == Some(a)
    {
      hide KeyOf, GroupOf, FoundSoFar, Plain;
      var keys := kept.Keys;
      kept := kept - expired;
      var found: seq<Event> := [];
      NothingRead(kept, keys);
      while keys != {}
        invariant kept == old(kept) - expired && keys <= old(kept).Keys && Valid()
        invariant FoundSoFar(kept, keys, found)
        decreases |keys|
      {
        var key :| key in keys;
        if key in kept {
          var g := GroupOf(key);
          ghost var h :| KeyOf(h) == key;
          KeyRoundTrip(h);
          if g.None? {
            assert Lookup(h).Some?;
            return None;
          }
          OneMoreKey(kept, keys, found, h);
          found := found + [Decode(g.value, kept[key].fields)];
        } else {
          ExpiredKey(kept, keys, found, key);
        }
        keys := keys - {key};
      }
      AllRead(kept, found);
      forall a ensures a in found <==> exists g :: Lookup(g) == Some(a) {
        if a in found {
          var g :| Get(kept, g) == Some(a);
          assert Lookup(g) == Some(a);
        }
      }
      events := Some(found);
    }

    static lemma NothingRead(kept: map<string, Kept>, keys: set<string>)
      requires kept.Keys <= keys
      ensures FoundSoFar(kept, keys, [])
    {
      hide KeyOf;
    }

    static lemma AllRead(kept: map<string, Kept>, found: seq<Event>)
      requires FoundSoFar(kept, {}, found)
      ensures forall g :: Get(kept, g).Some? ==> Plain(g)
      ensures forall a :: a in found <==> exists g :: Get(kept, g) == Some(a)
    {
      hide KeyOf, Plain;
    }
  }
}
