/**
 Row ids after a clear.  SQLite reuses ids once the highest rows are gone; `_queue_id_floor` must stop
 a new song from taking the id of the track that a clear left playing.
 */
module PlaybackIds {
  import opened Collections
  import opened Numbers
  import opened Playback
  import PlaybackShuffle

  /** The fields the argument is about. */
  datatype Held = Held(queue: seq<Id>, floor: nat, current: Option<Id>, detached: Option<Id>)

  function Of(s: State): Held {
    Held(s.queue, s.floor, s.current, s.detached)
  }

  datatype Move = Idle | Insert | Delete(id: Id) | Empty(keep: bool, present: bool) | Forget | Become(item: Id)

  function Top(h: Held): nat {
    if h.queue == [] then 0 else h.queue[|h.queue| - 1]
  }

  function Fresh(h: Held): Id {
    if h.floor == 0 then Top(h) + 1 else MaxNat(h.floor, Top(h)) + 1
  }

  function Apply(h: Held, m: Move): Held {
    match m
    case Idle => h
    case Insert => h.(queue := h.queue + [Fresh(h)], floor := if h.floor == 0 then 0 else Fresh(h))
    case Delete(id) => h.(queue := Remove(h.queue, id))
    case Empty(keep, present) =>
      Held([], MaxNat(h.floor, Top(h)), h.current,
           if h.detached.Some? then h.detached else if keep && present then h.current else None)
    case Forget => h.(current := None, detached := None)
    case Become(item) => h.(current := Some(item), detached := None)
  }

  ghost predicate Legal(h: Held, m: Move) {
    m.Empty? && m.keep && m.present ==> h.current.Some? && h.current.value in h.queue
  }

  /** A detached track is what plays, was reserved, and shares its id with no row. */
  ghost predicate Ok(h: Held) {
    && Ascending(h.queue)
    && (h.floor > 0 ==> forall id :: id in h.queue ==> id <= h.floor)
    && (h.detached.Some? ==>
          h.current == h.detached && h.detached.value <= h.floor && h.detached.value !in h.queue)
  }

  lemma TopIsHighest(h: Held)
    requires Ascending(h.queue)
    ensures forall id :: id in h.queue ==> id <= Top(h)
  {
  }

  lemma InsertKeepsOk(h: Held)
    requires Ok(h)
    ensures Ok(Apply(h, Insert)) && h.floor <= Apply(h, Insert).floor
  {
    hide Top;
    TopIsHighest(h);
    var t := Apply(h, Insert);
    forall i, j | 0 <= i < j < |t.queue| ensures t.queue[i] < t.queue[j] {
      assert t.queue[i] in h.queue;
    }
  }

  lemma DeleteKeepsOk(h: Held, id: Id)
    requires Ok(h)
    ensures Ok(Apply(h, Delete(id)))
  {
    PlaybackShuffle.AscendingNoDuplicates(h.queue);
    RemoveFacts(h.queue, id);
  }

  lemma EmptyKeepsOk(h: Held, keep: bool, present: bool)
    requires Ok(h) && Legal(h, Empty(keep, present))
    ensures Ok(Apply(h, Empty(keep, present)))
  {
    hide Top;
    TopIsHighest(h);
  }

  lemma MoveKeepsOk(h: Held, m: Move)
    requires Ok(h) && Legal(h, m)
    ensures Ok(Apply(h, m))
    ensures h.floor <= Apply(h, m).floor
  {
    hide Top, Fresh, Ascending;
    match m
    case Insert => InsertKeepsOk(h);
    case Delete(id) => DeleteKeepsOk(h, id);
    case Empty(keep, present) => EmptyKeepsOk(h, keep, present);
    case _ =>
  }

  // ---------------------------------------------------------------- every step is a few moves

  lemma BeginHolds(s: State, id: Id)
    ensures Of(Begin(s, id)) == Of(s)
  {
  }

  lemma AutoPlayHolds(s: State, startAfter: Option<Id>, shuffled: seq<Id>)
    ensures Of(AutoPlay(s, startAfter, shuffled)) == Of(s)
  {
  }

  lemma PreviousHolds(s: State)
    ensures Of(Previous(s)) == Of(s)
  {
  }

  lemma DeleteHolds(s: State, id: Id)
    requires RowsOk(s)
    ensures Of(DeleteRow(s, id)) == Apply(Of(s), Delete(id))
  {
  }

  lemma DropHolds(s: State) returns (m: Move)
    requires RowsOk(s)
    ensures m == Idle || m.Delete?
    ensures Of(TakeGeneration(DropActive(s), None)) == Apply(Of(s), m)
  {
    m := if ActiveItem(s).Some? then Delete(ActiveItem(s).value) else Idle;
    if ActiveItem(s).Some? {
      DeleteHolds(s, ActiveItem(s).value);
    }
  }

  lemma NextHolds(s: State) returns (m: Move, n: Move)
    requires RowsOk(s)
    ensures (m == Idle || m.Delete?) && (n == Idle || n == Forget)
    ensures Of(Next(s)) == Apply(Apply(Of(s), m), n)
  {
    m := DropHolds(s);
    var s1 := TakeGeneration(DropActive(s), None);
    n := if s1.shuffleOn && s1.shuffle != [] && NextIndex(s1).Some? then Idle else Forget;
  }

  lemma SkipHolds(s: State) returns (m: Move, n: Move)
    requires RowsOk(s)
    ensures (m == Idle || m.Delete?) && (n == Idle || n == Forget)
    ensures Of(Skip(s)) == Apply(Apply(Of(s), m), n)
  {
    m := DropHolds(s);
    n := if ActiveItem(s).Some? then Forget else Idle;
  }

  lemma ClearHolds(s: State, stopPlayback: bool) returns (m: Move, n: Move)
    requires RowsOk(s)
    ensures Legal(Of(s), m) && m.Empty? && (n == Idle || n == Forget)
    ensures Of(Clear(s, stopPlayback)) == Apply(Apply(Of(s), m), n)
  {
    m := Empty(!stopPlayback, s.current.Some? && s.current.value in s.media);
    n := if stopPlayback then Forget else Idle;
  }

  lemma FinishedHolds(s: State, src: Url, shuffled: seq<Id>) returns (m: Move, n: Move)
    requires RowsOk(s)
    ensures (m == Idle || m == Forget) && (n == Idle || n.Delete?)
    ensures s.detached.Some? ==> n == Idle
    ensures Of(Finished(s, src, shuffled)) == Apply(Apply(Of(s), m), n)
  {
    m, n := Idle, Idle;
    if Matches(s, src) {
      m := Forget;
      if s.repeatMode == RepeatOne && s.detached.None? {
        BeginHolds(ClearNowPlaying(s), s.current.value);
      } else {
        AutoPlayHolds(AfterFinish(s), None, shuffled);
        if s.detached.None? {
          n := Delete(s.current.value);
          DeleteHolds(ClearNowPlaying(s), s.current.value);
        }
      }
    }
  }

  lemma FailedHolds(s: State, src: Url) returns (m: Move, n: Move)
    requires RowsOk(s)
    ensures (m == Idle || m == Forget) && (n == Idle || (s.current.Some? && n == Delete(s.current.value)))
    ensures Of(Failed(s, src)) == Apply(Apply(Of(s), m), n)
  {
    m, n := Idle, Idle;
    if Matches(s, src) {
      m, n := Forget, Delete(s.current.value);
      DeleteHolds(ClearNowPlaying(s), s.current.value);
    }
  }

  lemma ResolvedHolds(s: State, gen: nat, answer: Option<Url>) returns (m: Move)
    ensures m == Idle || m == Insert
    ensures Of(ResolvedTo(s, gen, answer)) == Apply(Of(s), m)
  {
    m := if gen !in s.flight || s.flight[gen].stage != Resolving || answer.None? || !IsNewest(s, gen)
            || !s.flight[gen].enqueue then Idle else Insert;
  }

  lemma AnnounceHolds(s: State, gen: nat) returns (m: Move)
    ensures m == Idle || m.Become?
    ensures Of(Announce(s, gen)) == Apply(Of(s), m)
  {
    m := if gen !in s.flight || !s.flight[gen].stage.Resolved? || s.flight[gen].item.None?
            || (!s.flight[gen].enqueue && !IsNewest(s, gen)) then Idle
         else Become(s.flight[gen].item.value);
  }

  lemma SoundHolds(s: State, gen: nat) returns (m: Move)
    ensures m == Idle || m == Forget
    ensures Of(Sound(s, gen)) == Apply(Of(s), m)
  {
    m := if gen in s.flight && s.flight[gen].stage.Announced? && s.flight[gen].item.Some? && !IsNewest(s, gen)
            && Matches(s, s.flight[gen].stage.url) then Forget else Idle;
  }

  lemma AnswersHold(s: State, gen: nat, ok: bool)
    ensures Of(Hydrated(s, gen, ok)) == Of(Returned(s, gen, ok)) == Of(s)
  {
  }

  lemma InsertHolds(s: State, media: Media)
    ensures Of(InsertRow(s, media)) == Apply(Of(s), Insert)
  {
  }

  lemma QuietHolds(s: State, on: bool, shuffled: seq<Id>)
    ensures Of(SetShuffle(s, on, shuffled)) == Of(BeginEnqueue(s)) == Of(s)
  {
  }

  /** Steps that set or clear the record. */
  lemma RecordHolds(s: State, id: Id, url: Url, on: bool, mode: Repeat)
    ensures Of(Stop(s)) == Apply(Of(s), Forget)
    ensures Of(AnnounceNow(s, id, url)) == Apply(Of(s), Become(id))
    ensures Of(Restore(s, id, url, on, mode)) == Apply(Of(s), if id in s.media then Become(id) else Idle)
  {
  }

  lemma ResumeHolds(s: State, a: Action) returns (m: Move)
    requires a.DoHydrated? || a.DoResolved? || a.DoAnnounce? || a.DoSound? || a.DoReturned?
    ensures !m.Empty? && Of(Step(s, a)) == Apply(Of(s), m)
  {
    hide Hydrated, ResolvedTo, Announce, Sound, Returned;
    m := Idle;
    match a
    case DoHydrated(gen, ok) => AnswersHold(s, gen, ok);
    case DoResolved(gen, answer) => m := ResolvedHolds(s, gen, answer);
    case DoAnnounce(gen) => m := AnnounceHolds(s, gen);
    case DoSound(gen) => m := SoundHolds(s, gen);
    case DoReturned(gen, ok) => AnswersHold(s, gen, ok);
  }

  /** Starting a request changes none of the fields. */
  lemma StartHolds(s: State, a: Action)
    requires a.DoBegin? || a.DoAutoPlay? || a.DoPrevious? || a.DoRepeat?
    ensures Of(Step(s, a)) == Of(s)
  {
    hide Begin, AutoPlay, Previous;
    match a
    case DoBegin(id) => BeginHolds(s, id);
    case DoAutoPlay(after, shuffled) => AutoPlayHolds(s, after, shuffled);
    case DoPrevious => PreviousHolds(s);
    case DoRepeat(mode) =>
  }

  lemma SimpleHolds(s: State, a: Action) returns (m: Move)
    requires a.DoInsert? || a.DoShuffle? || a.DoBeginEnqueue? || a.DoStop? || a.DoAnnounceNow? || a.DoRestore?
    ensures !m.Empty? && Of(Step(s, a)) == Apply(Of(s), m)
  {
    hide InsertRow, SetShuffle, BeginEnqueue, Stop, AnnounceNow, Restore, Fresh;
    match a
    case DoInsert(media) => m := Insert; InsertHolds(s, media);
    case DoShuffle(on, shuffled) => m := Idle; QuietHolds(s, on, shuffled);
    case DoBeginEnqueue => m := Idle; QuietHolds(s, false, []);
    case DoStop => m := Forget; RecordHolds(s, 1, "", false, RepeatNone);
    case DoAnnounceNow(id, url) => m := Become(id); RecordHolds(s, id, url, false, RepeatNone);
    case DoRestore(id, url, on, mode) =>
      m := if id in s.media then Become(id) else Idle;
      RecordHolds(s, id, url, on, mode);
  }

  lemma StepHolds(s: State, a: Action) returns (m: Move, n: Move)
    requires RowsOk(s)
    ensures Legal(Of(s), m) && Legal(Apply(Of(s), m), n)
    ensures Of(Step(s, a)) == Apply(Apply(Of(s), m), n)
    ensures !a.DoClear? ==> !m.Empty? && !n.Empty?
  {
    hide Step, RowsOk;
    m, n := Idle, Idle;
    if a.DoBegin? || a.DoAutoPlay? || a.DoPrevious? || a.DoRepeat? {
      StartHolds(s, a);
    } else if a.DoHydrated? || a.DoResolved? || a.DoAnnounce? || a.DoSound? || a.DoReturned? {
      m := ResumeHolds(s, a);
    } else if a.DoDelete? || a.DoClear? || a.DoNext? || a.DoSkip? || a.DoFinished? || a.DoFailed? {
      m, n := RemovalHolds(s, a);
    } else {
      m := SimpleHolds(s, a);
    }
  }

  lemma RemovalHolds(s: State, a: Action) returns (m: Move, n: Move)
    requires RowsOk(s) && (a.DoDelete? || a.DoClear? || a.DoNext? || a.DoSkip? || a.DoFinished? || a.DoFailed?)
    ensures Legal(Of(s), m) && !n.Empty? && (!a.DoClear? ==> !m.Empty?)
    ensures Of(Step(s, a)) == Apply(Apply(Of(s), m), n)
  {
    hide DeleteRow, Clear, Next, Skip, Finished, Failed, RowsOk;
    m, n := Idle, Idle;
    match a
    case DoDelete(id) => m := Delete(id); DeleteHolds(s, id);
    case DoClear(stop) => m, n := ClearHolds(s, stop);
    case DoNext => m, n := NextHolds(s);
    case DoSkip => m, n := SkipHolds(s);
    case DoFinished(src, shuffled) => m, n := FinishedHolds(s, src, shuffled);
    case DoFailed(src) => m, n := FailedHolds(s, src);
  }

  lemma StepKeepsOk(s: State, a: Action)
    requires RowsOk(s) && Ok(Of(s))
    ensures Ok(Of(Step(s, a))) && s.floor <= Step(s, a).floor
  {
    var m, n := StepHolds(s, a);
    MoveKeepsOk(Of(s), m);
    MoveKeepsOk(Apply(Of(s), m), n);
  }

  lemma {:induction false} RunKeepsOk(run: seq<State>, acts: seq<Action>, i: nat)
    requires IsRun(run, acts) && i < |run|
    ensures forall k :: 0 <= k <= i ==> Ok(Of(run[k]))
  {
    hide Step, Enabled, PlaybackShuffle.ShuffleOk;
    if i > 0 {
      RunKeepsOk(run, acts, i - 1);
      PlaybackShuffle.RunKeepsOk(run, acts, i - 1);
      StepKeepsOk(run[i - 1], acts[i - 1]);
    }
  }

  // ---------------------------------------------------------------- the theorems

  lemma OneStepFloor(run: seq<State>, acts: seq<Action>, i: nat)
    requires IsRun(run, acts) && i < |acts|
    ensures run[i].floor <= run[i + 1].floor
  {
    RunKeepsOk(run, acts, i);
    PlaybackShuffle.RunKeepsOk(run, acts, i);
    StepKeepsOk(run[i], acts[i]);
  }

  lemma {:induction false} FloorGrows(floors: seq<nat>, i: nat, j: nat)
    requires i <= j < |floors|
    requires forall k :: 0 <= k < |floors| - 1 ==> floors[k] <= floors[k + 1]
    ensures floors[i] <= floors[j]
  {
    if i < j {
      FloorGrows(floors, i, j - 1);
      assert floors[j - 1] <= floors[j - 1 + 1];
    }
  }

  lemma FloorNeverFalls(run: seq<State>, acts: seq<Action>, i: nat, j: nat)
    requires IsRun(run, acts) && i <= j < |run|
    ensures run[i].floor <= run[j].floor
  {
    var floors := seq(|run|, k requires 0 <= k < |run| => run[k].floor);
    forall k | 0 <= k < |floors| - 1 ensures floors[k] <= floors[k + 1] {
      OneStepFloor(run, acts, k);
    }
    FloorGrows(floors, i, j);
  }

  lemma ClearReserves(s: State, stopPlayback: bool)
    requires RowsOk(s)
    ensures forall id :: id in s.queue ==> id <= Clear(s, stopPlayback).floor
    ensures s.queue != [] ==> Clear(s, stopPlayback).floor > 0
  {
    forall id | id in s.queue ensures id <= Highest(s) {
    }
  }

  /**
   After a clear that found rows, an inserted id exceeds every id present when that clear ran or at any
   moment since.
   */
  lemma NewIdsExceedOldOnes(run: seq<State>, acts: seq<Action>, clear: nat, k: nat, j: nat, id: Id)
    requires IsRun(run, acts) && clear < |acts| && clear < j < |run|
    requires acts[clear].DoClear? && run[clear].queue != []
    requires clear <= k <= j && id in run[k].queue
    ensures NextId(run[j]) > id
  {
    PlaybackShuffle.RunKeepsOk(run, acts, clear);
    ClearReserves(run[clear], acts[clear].stopPlayback);
    FloorNeverFalls(run, acts, clear + 1, j);
    if k > clear {
      FloorNeverFalls(run, acts, clear + 1, k);
      FloorNeverFalls(run, acts, k, j);
      RunKeepsOk(run, acts, k);
    }
  }

  lemma RemoveAppended(queue: seq<Id>, id: Id)
    requires id !in queue
    ensures Remove(queue + [id], id) == queue
  {
    var longer := queue + [id];
    assert longer[|queue|] == id;
    assert IndexOf(longer, id) == |queue|;
  }

  lemma ReuseWhenInserted(h: Held)
    requires Ok(h)
    ensures Fresh(Apply(Apply(h, Insert), Delete(Fresh(h)))) == Fresh(h) <==> h.floor == 0
  {
    hide Remove, Ascending;
    TopIsHighest(h);
    RemoveAppended(h.queue, Fresh(h));
  }

  /** The condition is needed: exactly while nothing is reserved, a deleted id comes back at once. */
  lemma ReuseIffNothingReserved(s: State, media: Media)
    requires RowsOk(s) && Ok(Of(s))
    ensures NextId(DeleteRow(InsertRow(s, media), NextId(s))) == NextId(s) <==> s.floor == 0
  {
    var t := InsertRow(s, media);
    assert Of(t) == Apply(Of(s), Insert) && NextId(s) == Fresh(Of(s));
    RowsGrow(s, media);
    DeleteHolds(t, NextId(s));
    ReuseWhenInserted(Of(s));
  }

  lemma RowsGrow(s: State, media: Media)
    requires RowsOk(s)
    ensures RowsOk(InsertRow(s, media))
  {
    var t := s.(shuffle := [], shuffleOn := false, index := -1);
    PlaybackShuffle.InsertKeepsOk(t, media);
  }

  /** Nothing is reserved exactly when every clear so far found the table empty. */
  lemma {:induction false} ReservedIffClearFoundRows(run: seq<State>, acts: seq<Action>, n: nat)
    requires IsRun(run, acts) && n < |run|
    ensures run[n].floor > 0 <==> exists i :: 0 <= i < n && FoundRows(run, acts, i)
  {
    if n > 0 {
      ReservedIffClearFoundRows(run, acts, n - 1);
      ReservedStep(run, acts, n - 1);
    }
  }

  /** After a clear of an empty table the first id comes back. */
  lemma IdReturnsAfterEmptyClear(run: seq<State>, acts: seq<Action>)
    requires acts == [DoClear(false), DoInsert(Netease), DoDelete(1), DoInsert(Netease)]
    requires |run| == 5 && run[0] == INITIAL && forall i :: 0 <= i < 4 ==> run[i + 1] == Step(run[i], acts[i])
    ensures IsRun(run, acts) && run[2].queue == [1] && run[3].queue == [] && run[4].queue == [1]
  {
    assert run[1] == Step(run[0], acts[0]) && run[2] == Step(run[1], acts[1]);
    assert run[3] == Step(run[2], acts[2]) && run[4] == Step(run[3], acts[3]);
    assert run[2].queue == [1];
  }

  ghost predicate FoundRows(run: seq<State>, acts: seq<Action>, i: nat)
    requires i < |acts| && i < |run|
  {
    acts[i].DoClear? && run[i].queue != []
  }

  lemma ReservedStep(run: seq<State>, acts: seq<Action>, i: nat)
    requires IsRun(run, acts) && i < |acts|
    ensures run[i + 1].floor > 0 <==> run[i].floor > 0 || FoundRows(run, acts, i)
  {
    PlaybackShuffle.RunKeepsOk(run, acts, i);
    FloorChange(run[i], acts[i]);
  }

  lemma FloorChange(s: State, a: Action)
    requires RowsOk(s)
    ensures Step(s, a).floor > 0 <==> s.floor > 0 || (a.DoClear? && s.queue != [])
  {
    if a.DoClear? {
      ClearReserves(s, a.stopPlayback);
      assert Step(s, a) == Clear(s, a.stopPlayback);
    } else {
      var m, n := StepHolds(s, a);
      FloorKept(Of(s), Of(Step(s, a)), m, n);
    }
  }

  /** Only a clear raises the floor from zero. */
  lemma FloorKept(h: Held, t: Held, m: Move, n: Move)
    requires !m.Empty? && !n.Empty? && t == Apply(Apply(h, m), n)
    ensures t.floor > 0 <==> h.floor > 0
  {
  }

  /**
   While a track plays on after a clear, no queued row has its id, and neither its end nor its failure
   removes a row; in id order the next song is the lowest of the new ids.
   */
  lemma DetachedTrackDeletesNothing(run: seq<State>, acts: seq<Action>, i: nat, src: Url, shuffled: seq<Id>)
    requires IsRun(run, acts) && i < |run|
    requires run[i].detached.Some? && Matches(run[i], src)
    ensures run[i].detached.value !in run[i].queue
    ensures Finished(run[i], src, shuffled).queue == run[i].queue
    ensures Failed(run[i], src).queue == run[i].queue
    ensures !run[i].shuffleOn && run[i].queue != [] ==>
      && Finished(run[i], src, shuffled).pending == Some(run[i].queue[0])
      && Finished(run[i], src, shuffled).generation == run[i].generation + 1
      && forall id :: id in run[i].queue ==> run[i].queue[0] <= id
  {
    var s := run[i];
    RunKeepsOk(run, acts, i);
    PlaybackShuffle.RunKeepsOk(run, acts, i);
    var m, n := FinishedHolds(s, src, shuffled);
    var o, p := FailedHolds(s, src);
    if !s.shuffleOn && s.queue != [] {
      var s1 := ClearNowPlaying(s);
      assert NextInOrder(s1, None) == Some(s.queue[0]);
      assert Finished(s, src, shuffled) == Begin(s1, s.queue[0]);
    }
  }
}
