/**
 The playback clock of `backend/main.py`: a start instant, an optional pause instant and the time
 spent paused, against the position a listener would expect.  Instants are reals.
 */
module PlaybackClock {
  import opened Collections
  import opened Numbers

  datatype Clock = Clock(
    hasItem: bool,             // _current_queue_item_id is not None
    hasUrl: bool,              // _current_source_url is not empty
    startedAt: Option<real>,
    pausedAt: Option<real>,
    pausedTotal: real)

  const STOPPED := Clock(false, false, None, None, 0.0)

  /** What happens to the clock, each with the instant it happens at. */
  datatype Event =
    | Start(at: real, hasUrl: bool)   // a row becomes the current one
    | Stop(at: real)                  // the record is cleared or taken
    | Pause(at: real)
    | Resume(at: real)
    | Seek(at: real, position: real)

  function Step(c: Clock, e: Event): Clock {
    match e
    case Start(at, hasUrl) => Clock(true, hasUrl, Some(at), None, 0.0)
    case Stop(at) => STOPPED
    case Pause(at) => if c.startedAt.None? || c.pausedAt.Some? then c else c.(pausedAt := Some(at))
    case Resume(at) =>
      if c.startedAt.None? || c.pausedAt.None? then c
      else c.(pausedTotal := c.pausedTotal + Max(0.0, at - c.pausedAt.value), pausedAt := None)
    case Seek(at, position) =>
      if !c.hasItem || !c.hasUrl then c
      else c.(startedAt := Some(at - Max(0.0, position)), pausedTotal := 0.0,
              pausedAt := if c.pausedAt.Some? then Some(at) else None)
  }

  function After(events: seq<Event>): Clock {
    if events == [] then STOPPED else Step(After(events[..|events| - 1]), events[|events| - 1])
  }

  /** `_resolve_playback_position_s` before its clamp. */
  function RawPosition(c: Clock, now: real): real
    requires c.startedAt.Some?
  {
    (if c.pausedAt.Some? then c.pausedAt.value else now) - c.startedAt.value - c.pausedTotal
  }

  function Position(c: Clock, now: real): real
    requires c.startedAt.Some?
  {
    Max(0.0, RawPosition(c, now))
  }

  lemma AfterOne(events: seq<Event>, e: Event)
    ensures After(events + [e]) == Step(After(events), e)
  {
    assert (events + [e])[..|events|] == events;
  }

  // ---------------------------------------------------------------- the expected position

  /** Is a track current, and can it be sought in? */
  predicate Started(events: seq<Event>) {
    events != [] &&
    match events[|events| - 1]
    case Start(_, _) => true
    case Stop(_) => false
    case _ => Started(events[..|events| - 1])
  }

  predicate Seekable(events: seq<Event>) {
    events != [] &&
    match events[|events| - 1]
    case Start(_, hasUrl) => hasUrl
    case Stop(_) => false
    case _ => Seekable(events[..|events| - 1])
  }

  /** Is playback held, whatever repeated pauses and resumes say? */
  predicate Held(events: seq<Event>) {
    events != [] &&
    match events[|events| - 1]
    case Pause(_) => true
    case Seek(_, _) => Held(events[..|events| - 1])
    case _ => false
  }

  /** Does the last event set the position anew? */
  predicate Repositions(events: seq<Event>)
    requires events != []
  {
    var e := events[|events| - 1];
    e.Start? || (e.Seek? && Seekable(events[..|events| - 1]))
  }

  /** The target of the last effective seek, or zero. */
  function Target(events: seq<Event>): real {
    if events == [] then 0.0
    else if Repositions(events) then
      (match events[|events| - 1] case Seek(_, position) => Max(0.0, position) case _ => 0.0)
    else Target(events[..|events| - 1])
  }

  /** The time played since, leaving out the stretches during which playback was held. */
  function Unpaused(events: seq<Event>, now: real): real {
    if events == [] then 0.0
    else
      var last := if Held(events) then 0.0 else now - events[|events| - 1].at;
      if Repositions(events) then last
      else last + Unpaused(events[..|events| - 1], events[|events| - 1].at)
  }

  /** A clock that never runs backwards. */
  ghost predicate InOrder(events: seq<Event>) {
    forall i, j :: 0 <= i < j < |events| ==> events[i].at <= events[j].at
  }

  ghost predicate NoEarlier(events: seq<Event>, now: real) {
    InOrder(events) && (events != [] ==> events[|events| - 1].at <= now)
  }

  // ---------------------------------------------------------------- refinement

  /** The fields say what the events say. */
  lemma {:induction false} FieldsFollow(events: seq<Event>)
    ensures After(events).startedAt.Some? <==> Started(events)
    ensures (After(events).hasItem && After(events).hasUrl) <==> Seekable(events)
    ensures After(events).hasItem <==> Started(events)
    ensures Started(events) ==> (After(events).pausedAt.Some? <==> Held(events))
    ensures !Started(events) ==> After(events).pausedAt.None?
  {
    if events != [] {
      FieldsFollow(events[..|events| - 1]);
    }
  }

  lemma PrefixInOrder(events: seq<Event>, now: real)
    requires NoEarlier(events, now) && events != []
    ensures NoEarlier(events[..|events| - 1], events[|events| - 1].at)
  {
  }

  /**
   In every run of starts, stops, pauses, resumes and seeks, in any order and repeated at will, the
   position reported at a later instant is the last seek target plus the time played since.
   */
  lemma {:induction false} PositionIsTargetPlusPlayedTime(events: seq<Event>, now: real)
    requires NoEarlier(events, now) && Started(events)
    ensures After(events).startedAt.Some?
    ensures RawPosition(After(events), now) == Target(events) + Unpaused(events, now)
    ensures Target(events) >= 0.0 && Unpaused(events, now) >= 0.0
    ensures Position(After(events), now) == Target(events) + Unpaused(events, now)
  {
    FieldsFollow(events);
    var before := events[..|events| - 1];
    var e := events[|events| - 1];
    FieldsFollow(before);
    if !Repositions(events) {
      PrefixInOrder(events, now);
      PositionIsTargetPlusPlayedTime(before, e.at);
      PauseNotLater(before, e.at);
    }
  }

  /** A pause that is still on began in the past, so the time it adds on resuming is not negative. */
  lemma {:induction false} PauseNotLater(events: seq<Event>, now: real)
    requires NoEarlier(events, now)
    ensures After(events).pausedAt.Some? ==> After(events).pausedAt.value <= now
  {
    if events != [] {
      PrefixInOrder(events, now);
      PauseNotLater(events[..|events| - 1], events[|events| - 1].at);
    }
  }

  /** Neither clamp of the clock ever changes a value. */
  lemma ClampsAreIdle(events: seq<Event>, now: real)
    requires NoEarlier(events, now)
    ensures Started(events) ==>
      After(events).startedAt.Some? && Position(After(events), now) == RawPosition(After(events), now)
    ensures After(events).pausedAt.Some? ==>
      Max(0.0, now - After(events).pausedAt.value) == now - After(events).pausedAt.value
  {
    FieldsFollow(events);
    PauseNotLater(events, now);
    if Started(events) {
      PositionIsTargetPlusPlayedTime(events, now);
    }
  }

  // ---------------------------------------------------------------- the module variables

  class PlaybackTime {
    var currentItem: bool
    var currentUrl: bool
    var playStartedAt: Option<real>
    var pausedAt: Option<real>
    var pausedTotalS: real
    ghost var events: seq<Event>

    /** The variables are what the events so far make of them. */
    ghost predicate Valid()
      reads this
    {
      Clock(currentItem, currentUrl, playStartedAt, pausedAt, pausedTotalS) == After(events)
    }

    constructor ()
      ensures Valid() && events == []
    {
      currentItem, currentUrl, playStartedAt, pausedAt, pausedTotalS := false, false, None, None, 0.0;
      events := [];
    }

    method SetNowPlaying(item: bool, url: bool, now: real)
      requires Valid()
      modifies this
      ensures Valid() && events == old(events) + [if item then Start(now, url) else Stop(now)]
    {
      currentItem, currentUrl := item, item && url;
      pausedAt := None;
      pausedTotalS := 0.0;
      playStartedAt := if item then Some(now) else None;
      events := events + [if item then Start(now, url) else Stop(now)];
      assert events[..|events| - 1] == old(events);
    }

    /** The restart checkpoint: what starting, pausing and seeking at one instant amount to. */
    method Restore(position: real, paused: bool, now: real)
      requires Valid() && position >= 0.0
      modifies this
      ensures Valid()
      ensures events == old(events) + [Start(now, true)] + (if paused then [Pause(now)] else []) + [Seek(now, position)]
    {
      ghost var before := events;
      currentItem, currentUrl := true, true;
      playStartedAt := Some(now - position);
      pausedAt := if paused then Some(now) else None;
      pausedTotalS := 0.0;
      events := before + [Start(now, true)] + (if paused then [Pause(now)] else []) + [Seek(now, position)];
      AfterOne(before, Start(now, true));
      AfterOne(before + [Start(now, true)], Pause(now));
      AfterOne(events[..|events| - 1], Seek(now, position));
    }

    method MarkPaused(now: real)
      requires Valid()
      modifies this
      ensures Valid() && events == old(events) + [Pause(now)]
    {
      events := events + [Pause(now)];
      assert events[..|events| - 1] == old(events);
      if playStartedAt.None? || pausedAt.Some? {
        return;
      }
      pausedAt := Some(now);
    }

    method MarkResumed(now: real)
      requires Valid()
      modifies this
      ensures Valid() && events == old(events) + [Resume(now)]
    {
      events := events + [Resume(now)];
      assert events[..|events| - 1] == old(events);
      if playStartedAt.None? || pausedAt.None? {
        return;
      }
      pausedTotalS := pausedTotalS + Max(0.0, now - pausedAt.value);
      pausedAt := None;
    }

    method MarkSeeked(now: real, position: real)
      requires Valid()
      modifies this
      ensures Valid() && events == old(events) + [Seek(now, position)]
    {
      events := events + [Seek(now, position)];
      assert events[..|events| - 1] == old(events);
      var target := Max(0.0, position);
      if !currentItem || !currentUrl {
        return;
      }
      playStartedAt := Some(now - target);
      pausedTotalS := 0.0;
      if pausedAt.Some? {
        pausedAt := Some(now);
      }
    }

    method ResolvePosition(now: real) returns (position: real)
      requires Valid() && NoEarlier(events, now) && playStartedAt.Some?
      ensures Started(events) && position == Target(events) + Unpaused(events, now)
    {
      FieldsFollow(events);
      PositionIsTargetPlusPlayedTime(events, now);
      var upTo := if pausedAt.Some? then pausedAt.value else now;
      position := Max(0.0, upTo - playStartedAt.value - pausedTotalS);
    }
  }
}
