/**
 What the commands and voice events of the player do to the queue, said without the functions that
 search it: which row an advance starts, what a clear leaves playing, and what a stranger's event,
 a failure or a superseded request changes.
 */
module PlaybackAdvance {
  import opened Collections
  import opened Playback
  import opened PlaybackShuffle
  import PlaybackIds

  // ---------------------------------------------------------------- neighbours in id order

  /** `id` is the lowest queued id above `after`; ids are positive, so above 0 it is the lowest of all. */
  ghost predicate Follows(queue: seq<Id>, after: nat, id: Id) {
    id in queue && id > after && forall other :: other in queue && other > after ==> id <= other
  }

  /** `id` is the highest queued id below `before`. */
  ghost predicate Precedes(queue: seq<Id>, before: Id, id: Id) {
    id in queue && id < before && forall other :: other in queue && other < before ==> other <= id
  }

  ghost predicate IsHighest(queue: seq<Id>, id: Id) {
    id in queue && forall other :: other in queue ==> other <= id
  }

  lemma {:induction false} FirstAboveFollows(queue: seq<Id>, cursor: Id)
    requires Ascending(queue)
    ensures FirstAbove(queue, cursor).Some? ==> Follows(queue, cursor, FirstAbove(queue, cursor).value)
    ensures FirstAbove(queue, cursor).None? ==> forall id :: id in queue ==> id <= cursor
  {
    if queue != [] {
      FirstAboveFollows(queue[1..], cursor);
      assert queue == [queue[0]] + queue[1..];
    }
  }

  lemma LastIsHighest(queue: seq<Id>)
    requires Ascending(queue) && queue != []
    ensures Ascending(queue[..|queue| - 1])
    ensures forall id :: id in queue <==> id in queue[..|queue| - 1] || id == queue[|queue| - 1]
    ensures forall id :: id in queue ==> id <= queue[|queue| - 1]
  {
    assert queue == queue[..|queue| - 1] + [queue[|queue| - 1]];
  }

  lemma {:induction false} LastBelowPrecedes(queue: seq<Id>, cursor: Id)
    requires Ascending(queue)
    ensures LastBelow(queue, cursor).Some? ==> Precedes(queue, cursor, LastBelow(queue, cursor).value)
    ensures LastBelow(queue, cursor).None? ==> forall id :: id in queue ==> id >= cursor
  {
    hide Ascending;
    if queue != [] {
      LastIsHighest(queue);
      LastBelowPrecedes(queue[..|queue| - 1], cursor);
    }
  }

  // ---------------------------------------------------------------- starting a row

  /** The newest request is for row `id` and has just begun. */
  ghost predicate Begun(t: State, id: Id) {
    && t.pending == Some(id) && t.generation in t.flight
    && t.flight[t.generation].item == Some(id) && !t.flight[t.generation].enqueue
  }

  /** From `s` to `t` one request, for row `id`, was begun and nothing else changed among these. */
  ghost predicate Starts(s: State, t: State, id: Id) {
    && Begun(t, id) && t.generation == s.generation + 1
    && t.queue == s.queue && t.current == s.current && t.detached == s.detached
  }

  lemma BeginStarts(s: State, id: Id)
    requires id in s.media
    ensures Starts(s, Begin(s, id), id)
  {
  }

  /** The ordered advance: the lowest row above `after`; past the last one the lowest of all, with repeat all only. */
  ghost predicate Advances(s: State, t: State, after: nat) {
    if exists id :: Follows(s.queue, after, id) then exists id :: Follows(s.queue, after, id) && Starts(s, t, id)
    else if s.repeatMode == RepeatAll && s.queue != [] then exists id :: Follows(s.queue, 0, id) && Starts(s, t, id)
    else t == s
  }

  function Cursor(s: State, startAfter: Option<Id>): nat {
    if startAfter.Some? then startAfter.value
    else if s.detached.Some? || s.current.None? then 0
    else s.current.value
  }

  lemma PicksFollower(s: State, startAfter: Option<Id>)
    requires RowsOk(s) && (startAfter.Some? || s.current.None? || s.detached.Some? || s.repeatMode != RepeatOne)
    ensures
      var after := Cursor(s, startAfter);
      match NextInOrder(s, startAfter)
      case Some(id) =>
        || Follows(s.queue, after, id)
        || (Follows(s.queue, 0, id) && s.repeatMode == RepeatAll && forall other :: other in s.queue ==> other <= after)
      case None =>
        (s.repeatMode == RepeatAll ==> s.queue == []) && forall other :: other in s.queue ==> other <= after
  {
    var after := Cursor(s, startAfter);
    if after > 0 {
      FirstAboveFollows(s.queue, after);
    }
  }

  /** In id order the automatic advance starts the follower of its cursor; repeat one repeats a current row. */
  lemma AutoPlayAdvances(s: State, startAfter: Option<Id>, shuffled: seq<Id>)
    requires RowsOk(s) && !s.shuffleOn
    ensures
      var t := AutoPlay(s, startAfter, shuffled);
      if startAfter.None? && s.current.Some? && s.detached.None? && s.repeatMode == RepeatOne then
        if s.current.value in s.queue then Starts(s, t, s.current.value) else t == s
      else Advances(s, t, Cursor(s, startAfter))
  {
    hide Begin, Ascending, Starts;
    var next := NextInOrder(s, startAfter);
    if next.Some? && next.value in s.media {
      BeginStarts(s, next.value);
    }
    if startAfter.None? && s.current.Some? && s.detached.None? && s.repeatMode == RepeatOne {
      AbsentIsRefused(s, s.current.value);
    } else {
      PicksFollower(s, startAfter);
    }
  }

  lemma AbsentIsRefused(s: State, id: Id)
    ensures id !in s.media ==> Begin(s, id) == s
  {
  }

  // ---------------------------------------------------------------- next, skip, stop and previous

  /** The rows of `t` are those of `s` but for the dropped one. */
  ghost predicate Without(s: State, t: State, dropped: Option<Id>) {
    forall id :: id in t.queue <==> id in s.queue && dropped != Some(id)
  }

  lemma DropActiveIs(s: State)
    requires Ok(s)
    ensures
      var t := DropActive(s);
      && Ok(t) && Without(s, t, ActiveItem(s))
      && t.repeatMode == s.repeatMode && t.shuffleOn == s.shuffleOn && t.generation == s.generation
      && t.current == s.current && t.pending == s.pending && t.detached == s.detached
      && (ActiveItem(s).None? ==> t == s)
  {
    if ActiveItem(s).Some? {
      DeleteKeepsOk(s, ActiveItem(s).value);
      AscendingNoDuplicates(s.queue);
      RemoveFacts(s.queue, ActiveItem(s).value);
    }
  }

  /** A silenced player: no record, nothing pending, older requests outdated. */
  ghost predicate Silenced(s: State, t: State) {
    t.current.None? && t.detached.None? && t.url == "" && t.pending.None? && t.generation > s.generation
  }

  /** In id order, next drops the active row, and the advance after the voice call starts its follower. */
  lemma NextAdvances(s: State, shuffled: seq<Id>)
    requires Ok(s) && !s.shuffleOn
    ensures
      var t := Next(s);
      && Silenced(s, t) && Without(s, t, ActiveItem(s)) && t.repeatMode == s.repeatMode
      && Advances(t, AutoPlay(t, ActiveItem(s), shuffled), if ActiveItem(s).Some? then ActiveItem(s).value else 0)
  {
    hide DropActive, AutoPlay, Advances, ShuffleOk;
    DropActiveIs(s);
    AutoPlayAdvances(Next(s), ActiveItem(s), shuffled);
  }

  /** So does skip; without an active row it only outdates older requests. */
  lemma SkipAdvances(s: State, shuffled: seq<Id>)
    requires Ok(s) && !s.shuffleOn
    ensures
      var t := Skip(s);
      && Without(s, t, ActiveItem(s)) && t.repeatMode == s.repeatMode && t.generation > s.generation
      && (ActiveItem(s).Some? ==>
            Silenced(s, t) && Advances(t, AutoPlay(t, ActiveItem(s), shuffled), ActiveItem(s).value))
      && (ActiveItem(s).None? ==> t.current == s.current && t.detached == s.detached)
  {
    hide DropActive, AutoPlay, Advances, ShuffleOk;
    DropActiveIs(s);
    AutoPlayAdvances(Skip(s), ActiveItem(s), shuffled);
  }

  /** In shuffle mode, next starts what follows the active track in the list, wrapping with repeat all only. */
  lemma NextInShuffle(s: State)
    requires Ok(s) && s.shuffleOn && ActiveItem(s).Some?
    requires 0 <= s.index < |s.shuffle| && s.shuffle[s.index] == ActiveItem(s).value
    ensures
      var t := Next(s);
      var i := s.index;
      && t.shuffle == s.shuffle[..i] + s.shuffle[i + 1..] && Without(s, t, ActiveItem(s))
      && (if i + 1 < |s.shuffle| then Begun(t, s.shuffle[i + 1]) && t.index == i
          else if s.repeatMode == RepeatAll && i > 0 then Begun(t, s.shuffle[0]) && t.index == 0
          else Silenced(s, t))
  {
    hide RowsOk, Begun, Begin, DropActive, NoDuplicates;
    DropActiveIs(s);
    DropListed(s);
    var t := TakeGeneration(DropActive(s), None);
    if t.shuffle != [] && NextIndex(t).Some? {
      var next := NextIndex(t).value;
      RowOfList(DropActive(s), next);
      BeginBegun(t.(index := next), t.shuffle[next]);
    }
  }

  lemma DropListed(s: State)
    requires Ok(s) && s.shuffleOn && ActiveItem(s).Some?
    requires 0 <= s.index < |s.shuffle| && s.shuffle[s.index] == ActiveItem(s).value
    ensures
      var t := DropActive(s);
      t.shuffle == s.shuffle[..s.index] + s.shuffle[s.index + 1..] && t.index == s.index - 1
  {
    hide NoDuplicates, Remove;
    RowOfList(s, s.index);
    ListWithout(s.shuffle, s.index);
  }

  lemma BeginBegun(s: State, id: Id)
    requires id in s.media
    ensures Begun(Begin(s, id), id)
    ensures var t := Begin(s, id); t.shuffle == s.shuffle && t.index == s.index && t.queue == s.queue
  {
  }

  lemma RowOfList(s: State, i: nat)
    requires Ok(s) && i < |s.shuffle|
    ensures s.shuffle[i] in s.media
  {
    assert s.shuffle[i] in s.queue;
  }

  lemma PlaceOf(list: seq<Id>, i: nat)
    requires NoDuplicates(list) && i < |list|
    ensures IndexOf(list, list[i]) == i
  {
    var at := IndexOf(list, list[i]);
    assert at < |list| && list[at] == list[i];
  }

  lemma ListWithout(list: seq<Id>, i: nat)
    requires NoDuplicates(list) && i < |list|
    ensures IndexOf(list, list[i]) == i && Remove(list, list[i]) == list[..i] + list[i + 1..]
  {
    hide NoDuplicates, IndexOf;
    PlaceOf(list, i);
    assert list[i] in list;
  }

  /** Previous starts the row before the active one, or the entry before the index; from the first one it
      goes to the last with repeat all only. */
  lemma PreviousSteps(s: State)
    requires Ok(s)
    ensures
      var t := Previous(s);
      if s.shuffleOn && s.shuffle != [] then
        if s.index > 0 then Begun(t, s.shuffle[s.index - 1]) && t.index == s.index - 1
        else if s.repeatMode == RepeatAll then Begun(t, s.shuffle[|s.shuffle| - 1]) && t.index == |s.shuffle| - 1
        else t == s
      else if ActiveItem(s).None? then t == s
      else if exists id :: Precedes(s.queue, ActiveItem(s).value, id) then
        exists id :: Precedes(s.queue, ActiveItem(s).value, id) && Starts(s, t, id)
      else if s.repeatMode == RepeatAll && s.queue != [] then exists id :: IsHighest(s.queue, id) && Starts(s, t, id)
      else t == s
  {
    hide Begin, Begun, NoDuplicates;
    if s.shuffleOn && s.shuffle != [] {
      var to := if s.index > 0 then s.index - 1 else |s.shuffle| - 1;
      RowOfList(s, to);
      BeginBegun(s.(index := to), s.shuffle[to]);
    } else if ActiveItem(s).Some? {
      LastBelowPrecedes(s.queue, ActiveItem(s).value);
      PreviousInOrder(s);
    }
  }

  lemma PreviousInOrder(s: State)
    requires RowsOk(s) && ActiveItem(s).Some? && (!s.shuffleOn || s.shuffle == [])
    ensures
      var below := LastBelow(s.queue, ActiveItem(s).value);
      && (below.Some? && below.value in s.queue ==> Starts(s, Previous(s), below.value))
      && (below.None? && s.repeatMode == RepeatAll && s.queue != [] ==>
            exists id :: IsHighest(s.queue, id) && Starts(s, Previous(s), id))
      && (below.None? && !(s.repeatMode == RepeatAll && s.queue != []) ==> Previous(s) == s)
  {
    hide Begin, Starts;
    var below := LastBelow(s.queue, ActiveItem(s).value);
    if below.Some? && below.value in s.queue {
      BeginStarts(s, below.value);
    } else if below.None? && s.queue != [] {
      var last := s.queue[|s.queue| - 1];
      assert IsHighest(s.queue, last);
      BeginStarts(s, last);
    }
  }

  /** The chat `stop` keeps the rows and silences the player. */
  lemma StopSilences(s: State)
    ensures Silenced(s, Stop(s)) && Stop(s).queue == s.queue && Stop(s).shuffle == s.shuffle
  {
  }

  /** After enabling shuffle the index is where the current row is listed, or -1 if it is not. */
  lemma ShuffleFindsCurrent(s: State, shuffled: seq<Id>)
    ensures
      var t := SetShuffle(s, true, shuffled);
      && t.shuffle == shuffled
      && (if s.current.Some? && s.current.value in shuffled
          then 0 <= t.index < |shuffled| && shuffled[t.index] == s.current.value else t.index == -1)
  {
  }

  // ---------------------------------------------------------------- voice events

  /** An event for another source, or for none, changes nothing. */
  lemma StrangerIsIgnored(s: State, src: Url, shuffled: seq<Id>)
    requires s.current.None? || src != s.url || src == ""
    ensures Finished(s, src, shuffled) == s && Failed(s, src) == s
  {
  }

  /** The failure of the playing track drops its row, and its record. */
  lemma FailureDropsRow(s: State)
    requires Ok(s) && s.current.Some? && s.url != ""
    ensures
      var t := Failed(s, s.url);
      Without(s, t, s.current) && t.current.None? && t.detached.None? && t.url == "" && t.generation == s.generation
  {
    AscendingNoDuplicates(s.queue);
    RemoveFacts(s.queue, s.current.value);
  }

  /** With repeat one the end of a queued track starts it again and keeps every row. */
  lemma RepeatOneRepeats(s: State, shuffled: seq<Id>)
    requires Ok(s) && s.current.Some? && s.url != "" && s.repeatMode == RepeatOne && s.detached.None?
    ensures
      var t := Finished(s, s.url, shuffled);
      && t.queue == s.queue && t.current.None?
      && (if s.current.value in s.queue then Begun(t, s.current.value) && t.generation == s.generation + 1
          else t.generation == s.generation)
  {
  }

  /** A request that is superseded before it calls `voice.play` ends silently and withdraws its own record only. */
  lemma SupersededWithdraws(s: State, gen: nat)
    requires gen in s.flight && s.flight[gen].stage.Announced? && s.flight[gen].item.Some? && gen != s.generation
    ensures
      var t := Sound(s, gen);
      && t.flight == s.flight - {gen} && t.log == s.log && t.queue == s.queue
      && (if s.current.Some? && s.url != "" && s.url == s.flight[gen].stage.url
          then t.current.None? && t.detached.None? && t.url == ""
          else t.current == s.current && t.detached == s.detached && t.url == s.url)
  {
  }

  /** A play-now request whose steps succeed adds one row at the end, plays it and writes its history row. */
  lemma PlayNowSettles(s: State, url: Url)
    ensures
      var gen := s.generation + 1;
      var s1 := ResolvedTo(Hydrated(BeginEnqueue(s), gen, true), gen, Some(url));
      var t := Returned(Sound(Announce(s1, gen), gen), gen, true);
      && t.generation == gen && gen !in t.flight
      && t.queue == s.queue + [NextId(s)] && t.current == Some(NextId(s)) && t.url == url && t.detached.None?
      && t.log == s.log + [Took(gen), Play(gen, NextId(s), url), History(gen, NextId(s))]
  {
    var gen := s.generation + 1;
    var id := NextId(s);
    var s1 := ResolvedTo(Hydrated(BeginEnqueue(s), gen, true), gen, Some(url));
    assert s1.queue == s.queue + [id] && s1.generation == gen && s1.log == s.log + [Took(gen)];
    assert gen in s1.flight && s1.flight[gen] == Request(Some(id), true, Resolved(url));
    FinishesOnAir(s1, gen, id, url);
    assert s.log + [Took(gen)] + [Play(gen, id, url), History(gen, id)]
        == s.log + [Took(gen), Play(gen, id, url), History(gen, id)];
  }

  lemma FinishesOnAir(s: State, gen: nat, id: Id, url: Url)
    requires gen == s.generation && gen in s.flight && s.flight[gen] == Request(Some(id), true, Resolved(url))
    ensures
      var t := Returned(Sound(Announce(s, gen), gen), gen, true);
      && t.generation == gen && gen !in t.flight && t.queue == s.queue
      && t.current == Some(id) && t.url == url && t.detached.None?
      && t.log == s.log + [Play(gen, id, url), History(gen, id)]
  {
    var s1 := Announce(s, gen);
    assert s1.flight[gen] == Request(Some(id), true, Announced(url)) && s1.log == s.log;
    var s2 := Sound(s1, gen);
    assert s2.flight[gen] == Request(Some(id), true, Sounding(url)) && s2.log == s.log + [Play(gen, id, url)];
    assert s.log + [Play(gen, id, url)] + [History(gen, id)] == s.log + [Play(gen, id, url), History(gen, id)];
  }

  // ---------------------------------------------------------------- what a clear leaves playing

  /** A clear empties the queue and outdates every request.  Without stop the playing track goes on, detached
      if its row was queued; with stop nothing is left of it. */
  lemma ClearDetaches(s: State, stopPlayback: bool)
    requires RowsOk(s)
    ensures
      var t := Clear(s, stopPlayback);
      && t.queue == [] && t.shuffle == [] && t.index == -1 && t.pending.None? && t.generation == s.generation + 1
      && (stopPlayback ==> t.current.None? && t.detached.None? && t.url == "")
      && (!stopPlayback ==> t.current == s.current && t.url == s.url)
      && (!stopPlayback && s.detached.Some? ==> t.detached == s.detached)
      && (!stopPlayback && s.detached.None? ==>
            t.detached == if s.current.Some? && s.current.value in s.queue then s.current else None)
  {
  }

  /** Steps that neither write nor clear the now-playing record. */
  predicate KeepsRecord(a: Action) {
    match a
    case DoInsert(_) => true
    case DoDelete(_) => true
    case DoClear(stop) => !stop
    case DoShuffle(_, _) => true
    case DoRepeat(_) => true
    case DoBegin(_) => true
    case DoBeginEnqueue => true
    case DoHydrated(_, _) => true
    case DoResolved(_, _) => true
    case DoReturned(_, _) => true
    case DoAutoPlay(_, _) => true
    case DoPrevious => true
    case _ => false
  }

  ghost predicate SameRecord(s: State, t: State) {
    t.current == s.current && t.detached == s.detached && t.url == s.url
  }

  lemma StepKeepsRecord(s: State, a: Action)
    requires KeepsRecord(a) && s.detached.Some?
    ensures SameRecord(s, Step(s, a))
  {
  }

  /** A detached track stays so through inserts, deletes, further clears and requests not yet announced. */
  lemma {:induction false} DetachedStays(run: seq<State>, acts: seq<Action>, i: nat, j: nat)
    requires IsRun(run, acts) && i <= j < |run| && run[i].detached.Some?
    requires forall k :: i <= k < j ==> KeepsRecord(acts[k])
    ensures SameRecord(run[i], run[j])
  {
    hide Step, Enabled, KeepsRecord;
    if i < j {
      DetachedStays(run, acts, i, j - 1);
      StepKeepsRecord(run[j - 1], acts[j - 1]);
      assert run[j - 1 + 1] == Step(run[j - 1], acts[j - 1]);
    }
  }

  /** A queued track is playing and none is detached yet. */
  ghost predicate LeavesPlaying(s: State) {
    s.detached.None? && s.current.Some? && s.current.value in s.queue && s.url != ""
  }

  /** The end of a detached track: every row stays, and the lowest one starts, if there is one. */
  ghost predicate HandsOver(s: State, t: State) {
    && t.queue == s.queue && t.current.None? && t.detached.None?
    && (if s.queue == [] then t.generation == s.generation
        else exists id :: Follows(s.queue, 0, id) && Begun(t, id) && t.generation == s.generation + 1)
  }

  /**
   From a clear that leaves a queued track playing until its end: the track stays detached under its own
   id, and when it finishes the queue loses no row and, in id order and under every repeat mode, its
   lowest row starts, or nothing if there is none.
   */
  lemma ClearedTrackHandsOver(run: seq<State>, acts: seq<Action>, clear: nat, j: nat, shuffled: seq<Id>)
    requires IsRun(run, acts) && clear < j < |run| && acts[clear] == DoClear(false)
    requires LeavesPlaying(run[clear]) && !run[j].shuffleOn
    requires forall k :: clear < k < j ==> KeepsRecord(acts[k])
    ensures run[j].detached == run[j].current == run[clear].current && run[j].url == run[clear].url
    ensures run[j].detached.value !in run[j].queue
    ensures HandsOver(run[j], Finished(run[j], run[clear].url, shuffled))
  {
    hide Step, Enabled, KeepsRecord;
    PlaybackShuffle.RunKeepsOk(run, acts, j);
    PlaybackIds.RunKeepsOk(run, acts, j);
    ClearDetaches(run[clear], false);
    AfterClear(run, acts, clear);
    DetachedStays(run, acts, clear + 1, j);
    DetachedHandsOver(run[j], shuffled);
  }

  lemma AfterClear(run: seq<State>, acts: seq<Action>, i: nat)
    requires IsRun(run, acts) && i < |acts| && acts[i].DoClear?
    ensures run[i + 1] == Clear(run[i], acts[i].stopPlayback)
  {
  }

  lemma DetachedHandsOver(s: State, shuffled: seq<Id>)
    requires RowsOk(s) && !s.shuffleOn && s.detached.Some? && s.current.Some? && s.url != ""
    ensures HandsOver(s, Finished(s, s.url, shuffled))
  {
    hide AutoPlay;
    var s1 := ClearNowPlaying(s);
    AutoPlayAdvances(s1, None, shuffled);
    if s.queue != [] {
      assert Follows(s1.queue, 0, s1.queue[0]);
    }
  }

  /** A failed look-up ends the request and withdraws its own pending mark, no other. */
  lemma FailedLookUpWithdraws(s: State, gen: nat)
    requires gen in s.flight && !s.flight[gen].enqueue && s.flight[gen].item.Some?
    requires s.flight[gen].stage == Hydrating || s.flight[gen].stage == Resolving
    ensures
      var t := if s.flight[gen].stage == Hydrating then Hydrated(s, gen, false) else ResolvedTo(s, gen, None);
      && t.flight == s.flight - {gen} && t.queue == s.queue && t.log == s.log && SameRecord(s, t)
      && t.pending == if s.pending == s.flight[gen].item then None else s.pending
  {
  }

  /** `t` is `s` with one more row: the last one, under an id above all others, with the given source. */
  ghost predicate AddsRow(s: State, t: State, media: Media, id: Id) {
    t.queue == s.queue + [id] && t.media == s.media[id := media] && forall other :: other in s.queue ==> other < id
  }

  lemma InsertAddsRow(s: State, media: Media)
    requires RowsOk(s)
    ensures exists id :: AddsRow(s, InsertRow(s, media), media, id)
  {
    forall other | other in s.queue ensures other < NextId(s) {
      assert other <= Highest(s);
    }
    assert AddsRow(s, InsertRow(s, media), media, NextId(s));
  }

  /** A checkpoint makes its row current and, in shuffle mode, lists the queue in id order with the index on that row. */
  lemma RestoreTakesOver(s: State, id: Id, url: Url, on: bool, mode: Repeat)
    requires Ok(s)
    ensures
      var t := Restore(s, id, url, on, mode);
      if id !in s.queue then t == s
      else
        && t.current == Some(id) && t.url == url && t.detached.None? && t.repeatMode == mode && t.shuffleOn == on
        && t.queue == s.queue && t.generation == s.generation
        && (if on then t.shuffle == s.queue && 0 <= t.index < |s.queue| && s.queue[t.index] == id
            else t.shuffle == [] && t.index == -1)
  {
  }
}
