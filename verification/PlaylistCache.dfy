/**
 `PlaylistDetailCache` of `web/src/core/QQMusicData.js`: a Map in insertion order used as an LRU cache
 whose entries also expire, against the history of what was stored and read.
 */
module PlaylistCache {
  import opened Collections

  type Id = string
  type Value = string

  datatype Entry = Entry(id: Id, value: Value, time: real)

  /** What happened, with the instant of each call. */
  datatype Event = DidSet(id: Id, value: Value, at: real) | DidHit(id: Id, at: real) | DidMiss(id: Id, at: real)

  // ---------------------------------------------------------------- the map in insertion order

  function Without(items: seq<Entry>, id: Id): seq<Entry> {
    Filter((e: Entry) => e.id != id, items)
  }

  function Find(items: seq<Entry>, id: Id): Option<Entry> {
    if items == [] then None else if items[0].id == id then Some(items[0]) else Find(items[1..], id)
  }

  /** The last `max` entries. */
  function Trim(items: seq<Entry>, max: nat): seq<Entry> {
    if |items| > max then items[|items| - max..] else items
  }

  function AfterSet(items: seq<Entry>, id: Id, value: Value, now: real, max: nat): seq<Entry> {
    Trim(Without(items, id) + [Entry(id, value, now)], max)
  }

  /** Does a read at `now` find a live entry? */
  predicate Hits(items: seq<Entry>, id: Id, now: real, ttl: real) {
    Find(items, id).Some? && now - Find(items, id).value.time < ttl
  }

  function AfterGet(items: seq<Entry>, id: Id, now: real, ttl: real): seq<Entry> {
    if Hits(items, id, now, ttl) then Without(items, id) + [Find(items, id).value] else Without(items, id)
  }

  ghost predicate Distinct(items: seq<Entry>) {
    forall i, j :: 0 <= i < j < |items| ==> items[i].id != items[j].id
  }

  lemma {:induction false} FindFacts(items: seq<Entry>, id: Id)
    ensures Find(items, id).Some? <==> exists i :: 0 <= i < |items| && items[i].id == id
    ensures Find(items, id).Some? ==> Find(items, id).value in items && Find(items, id).value.id == id
  {
    if items != [] {
      FindFacts(items[1..], id);
      if exists i :: 0 <= i < |items| && items[i].id == id {
        var i :| 0 <= i < |items| && items[i].id == id;
        assert i > 0 ==> items[1..][i - 1] == items[i];
      }
      if items[0].id != id && Find(items, id).Some? {
        var i :| 0 <= i < |items[1..]| && items[1..][i].id == id;
        assert items[i + 1].id == id;
      }
    }
  }

  // ---------------------------------------------------------------- the history

  predicate Touches(e: Event) {
    !e.DidMiss?
  }

  /** The value last stored under an id, and when. */
  function LatestSet(log: seq<Event>, id: Id): Option<(Value, real)> {
    if log == [] then None
    else
      match log[|log| - 1]
      case DidSet(i, v, at) => if i == id then Some((v, at)) else LatestSet(log[..|log| - 1], id)
      case _ => LatestSet(log[..|log| - 1], id)
  }

  /** The other ids stored or hit since this one was last stored or hit. */
  function Others(log: seq<Event>, id: Id): set<Id> {
    if log == [] then {}
    else
      var last := log[|log| - 1];
      if !Touches(last) then Others(log[..|log| - 1], id)
      else if last.id == id then {}
      else Others(log[..|log| - 1], id) + {last.id}
  }

  lemma OneMore(log: seq<Event>, e: Event, id: Id)
    ensures LatestSet(log + [e], id) == if e.DidSet? && e.id == id then Some((e.value, e.at)) else LatestSet(log, id)
    ensures Others(log + [e], id) ==
      if !Touches(e) then Others(log, id) else if e.id == id then {} else Others(log, id) + {e.id}
  {
    assert (log + [e])[..|log|] == log;
  }

  // ---------------------------------------------------------------- the invariant

  /** Every entry is the latest one stored under its id. */
  ghost predicate UpToDate(items: seq<Entry>, log: seq<Event>) {
    forall e :: e in items ==> LatestSet(log, e.id) == Some((e.value, e.time))
  }

  /** Whatever stands later in the map was touched more recently. */
  ghost predicate ByRecency(items: seq<Entry>, log: seq<Event>) {
    forall i, j :: 0 <= i < j < |items| ==> items[j].id in Others(log, items[i].id)
  }

  ghost predicate Holds(items: seq<Entry>, id: Id) {
    exists e :: e in items && e.id == id
  }

  /** What is missing was never stored, has expired, or was overtaken by `max` other ids. */
  ghost predicate Excused(log: seq<Event>, id: Id, now: real, max: nat, ttl: real) {
    || LatestSet(log, id).None?
    || now - LatestSet(log, id).value.1 >= ttl
    || |Others(log, id)| >= max
  }

  ghost predicate Complete(items: seq<Entry>, log: seq<Event>, now: real, max: nat, ttl: real) {
    forall id :: !Holds(items, id) ==> Excused(log, id, now, max, ttl)
  }

  ghost predicate Ok(items: seq<Entry>, log: seq<Event>, now: real, max: nat, ttl: real) {
    && Distinct(items) && |items| <= max
    && UpToDate(items, log) && ByRecency(items, log)
    && Complete(items, log, now, max, ttl)
  }

  lemma WithoutFacts(items: seq<Entry>, id: Id)
    requires Distinct(items)
    ensures Distinct(Without(items, id)) && |Without(items, id)| <= |items|
    ensures forall e :: e in Without(items, id) <==> e in items && e.id != id
  {
    FilterMembers((e: Entry) => e.id != id, items);
    WithoutDistinct(items, id);
  }

  lemma {:induction false} WithoutDistinct(items: seq<Entry>, id: Id)
    requires Distinct(items)
    ensures Distinct(Without(items, id))
  {
    if items != [] {
      WithoutDistinct(items[1..], id);
      FilterMembers((e: Entry) => e.id != id, items[1..]);
      var rest := Without(items[1..], id);
      forall k | 0 <= k < |rest| ensures rest[k].id != items[0].id {
        assert rest[k] in items[1..];
      }
    }
  }

  lemma {:induction false} WithoutByRecency(items: seq<Entry>, id: Id, log: seq<Event>)
    requires ByRecency(items, log)
    ensures ByRecency(Without(items, id), log)
  {
    hide Others;
    if items != [] {
      WithoutByRecency(items[1..], id, log);
      FilterMembers((e: Entry) => e.id != id, items[1..]);
      var rest := Without(items[1..], id);
      forall k | 0 <= k < |rest| ensures rest[k].id in Others(log, items[0].id) {
        assert rest[k] in items[1..];
      }
    }
  }

  /** The touched entry goes to the end, and everything else is now older than it. */
  lemma TouchedIsNewest(items: seq<Entry>, log: seq<Event>, e: Event, x: Entry)
    requires Distinct(items) && ByRecency(items, log) && Touches(e) && e.id == x.id
    ensures ByRecency(Without(items, x.id) + [x], log + [e])
  {
    hide Others;
    WithoutFacts(items, x.id);
    WithoutByRecency(items, x.id, log);
    var kept := Without(items, x.id);
    forall i, j | 0 <= i < j < |kept| + 1
      ensures (kept + [x])[j].id in Others(log + [e], (kept + [x])[i].id)
    {
      assert kept[i] in kept;
      OneMore(log, e, kept[i].id);
    }
  }

  lemma {:induction false} DistinctCount(items: seq<Entry>, ids: set<Id>)
    requires Distinct(items) && forall e :: e in items ==> e.id in ids
    ensures |items| <= |ids|
  {
    if items != [] {
      var rest := items[1..];
      forall e | e in rest ensures e.id in ids - {items[0].id} {
        var k :| 0 <= k < |rest| && rest[k] == e;
        assert items[k + 1] == e;
      }
      DistinctCount(rest, ids - {items[0].id});
    }
  }

  /** An entry pushed out at the front was overtaken by all that are left. */
  lemma EvictedIsOvertaken(items: seq<Entry>, log: seq<Event>, max: nat)
    requires Distinct(items) && ByRecency(items, log) && |items| == max + 1
    ensures |Others(log, items[0].id)| >= max
  {
    hide Others;
    forall e | e in items[1..] ensures e.id in Others(log, items[0].id) {
      var k :| 0 <= k < |items[1..]| && items[1..][k] == e;
      assert items[k + 1] == e;
    }
    DistinctCount(items[1..], Others(log, items[0].id));
  }

  lemma ExcusedStays(log: seq<Event>, e: Event, id: Id, now: real, max: nat, ttl: real)
    requires Excused(log, id, now, max, ttl) && now <= e.at && (Touches(e) ==> e.id != id)
    ensures Excused(log + [e], id, e.at, max, ttl)
  {
    hide Others, LatestSet;
    OneMore(log, e, id);
    if Touches(e) {
      var grown := Others(log, id) + {e.id};
      assert grown == Others(log, id) + {e.id} && |grown| >= |Others(log, id)| by {
        assert Others(log, id) <= grown;
        SubsetSize(Others(log, id), grown);
      }
    }
  }

  lemma {:induction false} SubsetSize(a: set<Id>, b: set<Id>)
    requires a <= b
    ensures |a| <= |b|
  {
    assert b == a + (b - a);
  }

  lemma SetKeepsOk(items: seq<Entry>, log: seq<Event>, last: real, max: nat, ttl: real, id: Id, value: Value, now: real)
    requires Ok(items, log, last, max, ttl) && last <= now
    ensures Ok(AfterSet(items, id, value, now, max), log + [DidSet(id, value, now)], now, max, ttl)
  {
    hide Others, LatestSet, Filter, Excused, Without;
    var e := DidSet(id, value, now);
    var x := Entry(id, value, now);
    var grown := Without(items, id) + [x];
    var after := AfterSet(items, id, value, now, max);
    WithoutFacts(items, id);
    TouchedIsNewest(items, log, e, x);
    forall y | y in grown ensures LatestSet(log + [e], y.id) == Some((y.value, y.time)) {
      OneMore(log, e, y.id);
    }
    TrimFacts(grown, max, log + [e]);
    forall other | !Holds(after, other) ensures Excused(log + [e], other, now, max, ttl) {
      if Holds(grown, other) {
        assert |grown| == max + 1;
        var y :| y in grown && y.id == other;
        assert grown == [grown[0]] + after;
        assert y == grown[0];
        EvictedIsOvertaken(grown, log + [e], max);
        OvertakenIsExcused(log + [e], other, now, max, ttl);
      } else {
        assert x in grown;
        assert !Holds(items, other);
        ExcusedStays(log, e, other, last, max, ttl);
      }
    }
  }

  lemma OvertakenIsExcused(log: seq<Event>, id: Id, now: real, max: nat, ttl: real)
    requires |Others(log, id)| >= max
    ensures Excused(log, id, now, max, ttl)
  {
  }

  lemma TrimFacts(items: seq<Entry>, max: nat, log: seq<Event>)
    requires Distinct(items) && ByRecency(items, log)
    ensures Distinct(Trim(items, max)) && ByRecency(Trim(items, max), log) && |Trim(items, max)| <= max
    ensures forall e :: e in Trim(items, max) ==> e in items
  {
    hide Others;
  }

  lemma GetKeepsOk(items: seq<Entry>, log: seq<Event>, last: real, max: nat, ttl: real, id: Id, now: real)
    requires Ok(items, log, last, max, ttl) && last <= now
    ensures Ok(AfterGet(items, id, now, ttl), log + [if Hits(items, id, now, ttl) then DidHit(id, now) else DidMiss(id, now)], now, max, ttl)
  {
    FindFacts(items, id);
    if Hits(items, id, now, ttl) {
      HitKeepsOk(items, log, last, max, ttl, id, now);
    } else {
      MissKeepsOk(items, log, last, max, ttl, id, now);
    }
  }

  lemma HitKeepsOk(items: seq<Entry>, log: seq<Event>, last: real, max: nat, ttl: real, id: Id, now: real)
    requires Ok(items, log, last, max, ttl) && last <= now && Hits(items, id, now, ttl)
    ensures Ok(AfterGet(items, id, now, ttl), log + [DidHit(id, now)], now, max, ttl)
  {
    hide Others, LatestSet, Filter, Excused, Without, Find;
    FindFacts(items, id);
    var e := DidHit(id, now);
    var x := Find(items, id).value;
    var after := Without(items, id) + [x];
    WithoutFacts(items, id);
    WithoutSmaller(items, id, x);
    TouchedIsNewest(items, log, e, x);
    forall y | y in after ensures LatestSet(log + [e], y.id) == Some((y.value, y.time)) {
      OneMore(log, e, y.id);
    }
    forall other | !Holds(after, other) ensures Excused(log + [e], other, now, max, ttl) {
      assert x in after;
      assert !Holds(items, other);
      ExcusedStays(log, e, other, last, max, ttl);
    }
  }

  /** Taking out an entry that is there makes room for it. */
  lemma WithoutSmaller(items: seq<Entry>, id: Id, x: Entry)
    requires Distinct(items) && x in items && x.id == id
    ensures |Without(items, id)| < |items|
  {
    hide Filter, Without;
    WithoutFacts(items, id);
    var ids := set y | y in items :: y.id;
    DistinctIds(items);
    DistinctCount(Without(items, id), ids - {id});
  }

  lemma {:induction false} DistinctIds(items: seq<Entry>)
    ensures |set y | y in items :: y.id| <= |items|
  {
    if items != [] {
      DistinctIds(items[1..]);
      var all := set y | y in items :: y.id;
      var rest := set y | y in items[1..] :: y.id;
      assert all == rest + {items[0].id};
    } else {
      assert (set y | y in items :: y.id) == {};
    }
  }

  lemma MissKeepsOk(items: seq<Entry>, log: seq<Event>, last: real, max: nat, ttl: real, id: Id, now: real)
    requires Ok(items, log, last, max, ttl) && last <= now && !Hits(items, id, now, ttl)
    ensures Ok(AfterGet(items, id, now, ttl), log + [DidMiss(id, now)], now, max, ttl)
  {
    hide Others, LatestSet, Filter, Without, Find;
    FindFacts(items, id);
    var e := DidMiss(id, now);
    var after := Without(items, id);
    WithoutFacts(items, id);
    WithoutByRecency(items, id, log);
    SameHistory(log, e);
    forall other | !Holds(after, other) ensures Excused(log + [e], other, now, max, ttl) {
      if Holds(items, other) {
        var y :| y in items && y.id == other;
        assert other == id;
        MissedIsExpired(items, y, id, now, ttl);
      } else {
        ExcusedStays(log, e, other, last, max, ttl);
      }
    }
  }

  lemma SameHistory(log: seq<Event>, e: Event)
    requires e.DidMiss?
    ensures forall id :: LatestSet(log + [e], id) == LatestSet(log, id) && Others(log + [e], id) == Others(log, id)
  {
    hide Others, LatestSet;
    forall id ensures LatestSet(log + [e], id) == LatestSet(log, id) && Others(log + [e], id) == Others(log, id) {
      OneMore(log, e, id);
    }
  }

  lemma MissedIsExpired(items: seq<Entry>, y: Entry, id: Id, now: real, ttl: real)
    requires Distinct(items) && y in items && y.id == id && !Hits(items, id, now, ttl)
    ensures now - y.time >= ttl
  {
    hide Find;
    FindFacts(items, id);
    var i :| 0 <= i < |items| && items[i] == y;
    var j :| 0 <= j < |items| && items[j] == Find(items, id).value;
  }

  // ---------------------------------------------------------------- the cache

  class PlaylistDetailCache {
    const max: nat
    const ttl: real
    var items: seq<Entry>
    ghost var log: seq<Event>
    ghost var last: real   // the latest instant the clock has shown

    ghost predicate Valid()
      reads this
    {
      Ok(items, log, last, max, ttl)
    }

    constructor (max: nat, ttl: real, now: real)
      ensures Valid() && log == [] && last == now && this.max == max && this.ttl == ttl
    {
      this.max, this.ttl := max, ttl;
      items, log, last := [], [], now;
    }

    /**
     A value comes back only if it is the latest stored under the id and not expired; and it does come
     back then, unless at least `max` other ids were stored or hit since.
     */
    method Get(id: Id, now: real) returns (value: Option<Value>)
      requires Valid() && last <= now
      modifies this
      ensures Valid() && last == now
      ensures log == old(log) + [if value.Some? then DidHit(id, now) else DidMiss(id, now)]
      ensures value.Some? ==>
        LatestSet(old(log), id).Some? && LatestSet(old(log), id).value.0 == value.value
        && now - LatestSet(old(log), id).value.1 < ttl
      ensures value.None? ==> Excused(old(log), id, now, max, ttl)
    {
      hide Ok, Hits, Excused, LatestSet, Others, Find, Without;
      GetKeepsOk(items, log, last, max, ttl, id, now);
      GetFinds(items, log, last, max, ttl, id, now);
      var entry := Find(items, id);
      HitsMeans(items, id, now, ttl);
      last := now;
      if entry.None? || now - entry.value.time >= ttl {
        items := Without(items, id);
        log := log + [DidMiss(id, now)];
        return None;
      }
      items := Without(items, id);
      items := items + [entry.value];
      log := log + [DidHit(id, now)];
      value := Some(entry.value.value);
    }

    /** Deletes the oldest entries while there are too many. */
    method DropOldest()
      modifies this`items
      ensures items == Trim(old(items), max)
    {
      ghost var grown := items;
      while |items| > max
        invariant |items| <= |grown| && items == grown[|grown| - |items|..]
        invariant |items| >= max || items == grown
      {
        items := items[1..];
      }
    }

    /** Afterwards the entry is the newest one, and there are at most `max`. */
    method Set(id: Id, value: Value, now: real)
      requires Valid() && last <= now
      modifies this
      ensures Valid() && last == now && |items| <= max
      ensures log == old(log) + [DidSet(id, value, now)]
      ensures max > 0 ==> items != [] && items[|items| - 1] == Entry(id, value, now)
    {
      hide Ok, Without;
      SetKeepsOk(items, log, last, max, ttl, id, value, now);
      items := Without(items, id);
      items := items + [Entry(id, value, now)];
      DropOldest();
      log := log + [DidSet(id, value, now)];
      last := now;
    }
  }

  lemma HitsMeans(items: seq<Entry>, id: Id, now: real, ttl: real)
    ensures Hits(items, id, now, ttl) <==> Find(items, id).Some? && now - Find(items, id).value.time < ttl
  {
  }

  lemma GetFinds(items: seq<Entry>, log: seq<Event>, last: real, max: nat, ttl: real, id: Id, now: real)
    requires Ok(items, log, last, max, ttl) && last <= now
    ensures Hits(items, id, now, ttl) ==>
      var x := Find(items, id).value;
      LatestSet(log, id) == Some((x.value, x.time)) && now - x.time < ttl
    ensures !Hits(items, id, now, ttl) ==> Excused(log, id, now, max, ttl)
  {
    hide LatestSet, Others, Find;
    FindFacts(items, id);
    if !Hits(items, id, now, ttl) && Holds(items, id) {
      var y :| y in items && y.id == id;
      MissedIsExpired(items, y, id, now, ttl);
    }
  }
}
