/**
 The playback queue of `backend/main.py` and `backend/models.py` as a value, with one function per
 step that runs without suspending.  The mutable form is the class in `PlaybackEngine.dfy`; what
 whole runs of these steps guarantee is proved in the `Playback*` files beside this one.
 */
module Playback {
  import opened Collections
  import opened Numbers

  /** Row ids are the positive integers SQLite hands out. */
  type Id = i: int | 0 < i witness 1

  /** A source URL, already stripped as `_set_now_playing_queue_item` stores it. */
  type Url = string

  /** How a row becomes a playable URL: as stored, or after one or two awaited look-ups. */
  datatype Media = Direct(source: Url) | Netease | Bilibili

  datatype Repeat = RepeatNone | RepeatAll | RepeatOne

  /**
   The points at which a play request can be suspended.
   `Hydrating` and `Resolving` await a provider; `Resolved` has a URL and has not yet been announced;
   `Announced` has written the now-playing record; `Sounding` awaits the `voice.play` call.
   */
  datatype Stage = Hydrating | Resolving | Resolved(url: Url) | Announced(url: Url) | Sounding(url: Url)

  /** `item` is absent while a Bilibili play-now enqueue has not inserted its row. */
  datatype Request = Request(item: Option<Id>, enqueue: bool, stage: Stage)

  datatype Event =
    | Took(gen: nat)                        // the generation counter reached `gen`
    | Play(gen: nat, item: Id, url: Url)    // `voice.play` was called
    | History(gen: nat, item: Id)           // a history row was committed

  datatype State = State(
    queue: seq<Id>,             // rows in id order
    media: map<Id, Media>,
    floor: nat,                 // _queue_id_floor
    shuffleOn: bool,
    shuffle: seq<Id>,           // _shuffle_queue
    index: int,                 // _current_shuffle_index
    repeatMode: Repeat,
    current: Option<Id>,        // _current_queue_item_id
    url: Url,                   // _current_source_url
    detached: Option<Id>,       // id of _cleared_playing_item
    generation: nat,            // _play_request_generation
    pending: Option<Id>,        // _pending_queue_item_id
    flight: map<nat, Request>,  // suspended requests by the generation they took
    log: seq<Event>)

  const INITIAL := State([], map[], 0, false, [], -1, RepeatNone, None, "", None, 0, None, map[], [])

  // ---------------------------------------------------------------- rows and their ids

  function Highest(s: State): nat {
    if s.queue == [] then 0 else s.queue[|s.queue| - 1]
  }

  /** The id an inserted row receives: SQLite's own choice until an id has been reserved. */
  function NextId(s: State): Id {
    if s.floor == 0 then Highest(s) + 1 else MaxNat(s.floor, Highest(s)) + 1
  }

  function InsertRow(s: State, media: Media): State {
    var id := NextId(s);
    s.(queue := s.queue + [id], media := s.media[id := media], floor := if s.floor == 0 then 0 else id)
  }

  function DeleteRow(s: State, id: Id): State {
    if id !in s.media then s
    else
      var s1 := s.(queue := Remove(s.queue, id), media := s.media - {id});
      if s.shuffleOn && id in s.shuffle then
        var removed := IndexOf(s.shuffle, id);
        s1.(shuffle := Remove(s.shuffle, id),
            index := if removed <= s.index then s.index - 1 else s.index)
      else s1
  }

  /** The first row with an id above the cursor, in id order. */
  function FirstAbove(queue: seq<Id>, cursor: Id): Option<Id> {
    if queue == [] then None
    else if queue[0] > cursor then Some(queue[0])
    else FirstAbove(queue[1..], cursor)
  }

  /** The last row with an id below the cursor. */
  function LastBelow(queue: seq<Id>, cursor: Id): Option<Id> {
    if queue == [] then None
    else if queue[|queue| - 1] < cursor then Some(queue[|queue| - 1])
    else LastBelow(queue[..|queue| - 1], cursor)
  }

  // ---------------------------------------------------------------- the now-playing record

  function SetNowPlaying(s: State, item: Id, url: Url): State {
    s.(detached := None, current := Some(item), url := url)
  }

  function ClearNowPlaying(s: State): State {
    s.(detached := None, current := None, url := "")
  }

  /** Does a finished or failed source match the record? */
  predicate Matches(s: State, src: Url) {
    s.current.Some? && s.url != "" && src == s.url
  }

  function TakeIfMatch(s: State, src: Url): State {
    if Matches(s, src) then ClearNowPlaying(s) else s
  }

  // ---------------------------------------------------------------- play requests

  function TakeGeneration(s: State, pending: Option<Id>): State {
    s.(generation := s.generation + 1, pending := pending, log := s.log + [Took(s.generation + 1)])
  }

  predicate IsNewest(s: State, gen: nat) {
    gen == s.generation
  }

  /** The `finally` clause: a request for a queue row also withdraws its pending mark. */
  function End(s: State, gen: nat): State
    requires gen in s.flight
  {
    var r := s.flight[gen];
    var s1 := s.(flight := s.flight - {gen});
    if !r.enqueue && s.pending == r.item then s1.(pending := None) else s1
  }

  function Stay(s: State, gen: nat, r: Request): State {
    s.(flight := s.flight[gen := r])
  }

  /** `_play_queue_item_internal` up to its first suspension; an absent row is refused. */
  function Begin(s: State, item: Id): State {
    if item !in s.media then s
    else
      var s1 := TakeGeneration(s, Some(item));
      var stage := match s.media[item]
        case Direct(source) => Resolved(source)
        case Netease => Resolving
        case Bilibili => Hydrating;
      Stay(s1, s1.generation, Request(Some(item), false, stage))
  }

  /** A play-now Bilibili enqueue up to its first suspension. */
  function BeginEnqueue(s: State): State {
    var s1 := TakeGeneration(s, None);
    Stay(s1, s1.generation, Request(None, true, Hydrating))
  }

  function Hydrated(s: State, gen: nat, ok: bool): State {
    if gen !in s.flight || s.flight[gen].stage != Hydrating then s
    else if !ok || !IsNewest(s, gen) then End(s, gen)
    else Stay(s, gen, s.flight[gen].(stage := Resolving))
  }

  /** The provider answered: `None` is an exception. */
  function ResolvedTo(s: State, gen: nat, answer: Option<Url>): State {
    if gen !in s.flight || s.flight[gen].stage != Resolving then s
    else if answer.None? || !IsNewest(s, gen) then End(s, gen)
    else if s.flight[gen].enqueue then
      var s1 := InsertRow(s, Bilibili);
      Stay(s1, gen, Request(Some(NextId(s)), true, Resolved(answer.value)))
    else Stay(s, gen, s.flight[gen].(stage := Resolved(answer.value)))
  }

  /** Writes the now-playing record; only requests for a queue row check and move the shuffle index. */
  function Announce(s: State, gen: nat): State {
    if gen !in s.flight || !s.flight[gen].stage.Resolved? || s.flight[gen].item.None? then s
    else
      var r := s.flight[gen];
      if !r.enqueue && !IsNewest(s, gen) then End(s, gen)
      else
        var item := r.item.value;
        var s1 := if !r.enqueue && s.shuffleOn && item in s.shuffle
                  then s.(index := IndexOf(s.shuffle, item)) else s;
        Stay(SetNowPlaying(s1, item, r.stage.url), gen, r.(stage := Announced(r.stage.url)))
  }

  /** Calls `voice.play`, unless a newer request took over; then the record is withdrawn. */
  function Sound(s: State, gen: nat): State {
    if gen !in s.flight || !s.flight[gen].stage.Announced? || s.flight[gen].item.None? then s
    else
      var r := s.flight[gen];
      if !IsNewest(s, gen) then End(TakeIfMatch(s, r.stage.url), gen)
      else
        var s1 := s.(log := s.log + [Play(gen, r.item.value, r.stage.url)]);
        Stay(s1, gen, r.(stage := Sounding(r.stage.url)))
  }

  /** `voice.play` returned (`ok`) or raised. */
  function Returned(s: State, gen: nat, ok: bool): State {
    if gen !in s.flight || !s.flight[gen].stage.Sounding? || s.flight[gen].item.None? then s
    else if !ok || !IsNewest(s, gen) then End(s, gen)
    else End(s.(log := s.log + [History(gen, s.flight[gen].item.value)]), gen)
  }

  // ---------------------------------------------------------------- clearing

  function Clear(s: State, stopPlayback: bool): State {
    var keep := if s.detached.Some? then s.detached
                else if !stopPlayback && s.current.Some? && s.current.value in s.media then s.current
                else None;
    var s1 := s.(floor := MaxNat(s.floor, Highest(s)), queue := [], media := map[], shuffle := [], index := -1);
    var s2 := TakeGeneration(s1, None);
    if stopPlayback then ClearNowPlaying(s2) else s2.(detached := keep)
  }

  // ---------------------------------------------------------------- shuffle and automatic advance

  /** Queued ids that the shuffled order does not list yet. */
  function Missing(s: State): seq<Id> {
    var kept := Surviving(s);
    Filter(id => id !in kept, s.queue)
  }

  /** The shuffled order without ids that left the queue. */
  function Surviving(s: State): seq<Id> {
    Filter(id => id in s.queue, s.shuffle)
  }

  ghost predicate IsShuffleOf(shuffled: seq<Id>, ids: seq<Id>) {
    multiset(shuffled) == multiset(ids)
  }

  /** Brings the shuffled order up to date; `shuffled` is what `random.shuffle` made of the missing ids. */
  function Sync(s: State, shuffled: seq<Id>): State {
    var kept := Surviving(s);
    var index :=
      if 0 <= s.index < |s.shuffle| then
        if s.shuffle[s.index] in kept then IndexOf(kept, s.shuffle[s.index]) else -1
      else s.index;
    s.(shuffle := kept + shuffled, index := index)
  }

  /** Position of the next shuffled track, wrapping around when repeating. */
  function NextIndex(s: State): Option<nat> {
    if 0 <= s.index + 1 < |s.shuffle| then Some(s.index + 1)
    else if s.repeatMode == RepeatAll && |s.shuffle| > 0 then Some(0)
    else None
  }

  /** The id `_auto_play_next_from_queue` picks in id order. */
  function NextInOrder(s: State, startAfter: Option<Id>): Option<Id> {
    var cursor := if startAfter.Some? then startAfter else if s.detached.Some? then None else s.current;
    if startAfter.None? && s.current.Some? && s.detached.None? && s.repeatMode == RepeatOne then s.current
    else
      var above := if cursor.Some? then FirstAbove(s.queue, cursor.value) else First(s.queue);
      if above.None? && s.repeatMode == RepeatAll then First(s.queue) else above
  }

  function First(queue: seq<Id>): Option<Id> {
    if queue == [] then None else Some(queue[0])
  }

  function AutoPlay(s: State, startAfter: Option<Id>, shuffled: seq<Id>): State {
    if s.shuffleOn then
      var s1 := Sync(s, shuffled);
      match NextIndex(s1)
      case None => s1
      case Some(next) => Begin(s1.(index := next), s1.shuffle[next])
    else
      match NextInOrder(s, startAfter)
      case None => s
      case Some(id) => Begin(s, id)
  }

  function SetShuffle(s: State, on: bool, shuffled: seq<Id>): State {
    if !on then s.(shuffleOn := false, shuffle := [], index := -1)
    else
      s.(shuffleOn := true, shuffle := shuffled,
         index := if s.current.Some? && s.current.value in shuffled
                  then IndexOf(shuffled, s.current.value) else -1)
  }

  // ---------------------------------------------------------------- commands and voice events

  function ActiveItem(s: State): Option<Id> {
    if s.current.Some? then s.current else s.pending
  }

  function DropActive(s: State): State {
    if ActiveItem(s).Some? then DeleteRow(s, ActiveItem(s).value) else s
  }

  /** `voice_next` up to the call it awaits. */
  function Next(s: State): State {
    var s1 := TakeGeneration(DropActive(s), None);
    if s1.shuffleOn && s1.shuffle != [] then
      match NextIndex(s1)
      case None => ClearNowPlaying(s1)
      case Some(next) => Begin(s1.(index := next), s1.shuffle[next])
    else ClearNowPlaying(s1)
  }

  /** `voice_skip` and the chat command up to `voice.skip`. */
  function Skip(s: State): State {
    var s1 := TakeGeneration(DropActive(s), None);
    if ActiveItem(s).Some? then ClearNowPlaying(s1) else s1
  }

  /** The chat `stop` command. */
  function Stop(s: State): State {
    ClearNowPlaying(TakeGeneration(s, None))
  }

  function Previous(s: State): State {
    if s.shuffleOn && s.shuffle != [] then
      if s.index - 1 >= 0 then
        if s.index - 1 < |s.shuffle| then Begin(s.(index := s.index - 1), s.shuffle[s.index - 1]) else s
      else if s.repeatMode == RepeatAll then
        Begin(s.(index := |s.shuffle| - 1), s.shuffle[|s.shuffle| - 1])
      else s
    else
      match ActiveItem(s)
      case None => s
      case Some(cursor) =>
        match LastBelow(s.queue, cursor)
        case Some(id) => Begin(s, id)
        case None =>
          if s.repeatMode == RepeatAll && s.queue != [] then Begin(s, s.queue[|s.queue| - 1]) else s
  }

  /** A Netease or QQ play-now announces its new row without taking a generation. */
  function AnnounceNow(s: State, item: Id, url: Url): State {
    SetNowPlaying(s, item, url)
  }

  /** The one-shot restart checkpoint: the row that still plays, and the modes; the order starts as the queue. */
  function Restore(s: State, item: Id, url: Url, on: bool, mode: Repeat): State {
    if item !in s.media then s
    else
      SetNowPlaying(s, item, url).(
        shuffleOn := on, repeatMode := mode, shuffle := if on then s.queue else [],
        index := if on && item in s.queue then IndexOf(s.queue, item) else -1)
  }

  function Finished(s: State, src: Url, shuffled: seq<Id>): State {
    if !Matches(s, src) then s
    else
      var item := s.current.value;
      var s1 := TakeIfMatch(s, src);
      if s.repeatMode == RepeatOne && s.detached.None? then Begin(s1, item)
      else AutoPlay(if s.detached.None? then DeleteRow(s1, item) else s1, None, shuffled)
  }

  /** A playback error up to the notice it awaits. */
  function Failed(s: State, src: Url): State {
    if !Matches(s, src) then s else DeleteRow(TakeIfMatch(s, src), s.current.value)
  }

  // ---------------------------------------------------------------- runs

  /** One atomic step.  A continuation that a route runs after an awaited voice call (`AutoPlay`) may
      happen at any time, so every interleaving of the real routes is a run of these actions. */
  datatype Action =
    | DoInsert(media: Media) | DoDelete(id: Id) | DoClear(stopPlayback: bool)
    | DoShuffle(on: bool, shuffled: seq<Id>) | DoRepeat(mode: Repeat)
    | DoBegin(id: Id) | DoBeginEnqueue
    | DoHydrated(gen: nat, ok: bool) | DoResolved(gen: nat, answer: Option<Url>)
    | DoAnnounce(gen: nat) | DoSound(gen: nat) | DoReturned(gen: nat, ok: bool)
    | DoAutoPlay(startAfter: Option<Id>, shuffled: seq<Id>)
    | DoNext | DoSkip | DoStop | DoPrevious
    | DoFinished(src: Url, shuffled: seq<Id>) | DoFailed(src: Url)
    | DoAnnounceNow(id: Id, url: Url) | DoRestore(id: Id, url: Url, on: bool, mode: Repeat)

  function Step(s: State, a: Action): State {
    match a
    case DoInsert(media) => InsertRow(s, media)
    case DoDelete(id) => DeleteRow(s, id)
    case DoClear(stop) => Clear(s, stop)
    case DoShuffle(on, shuffled) => SetShuffle(s, on, shuffled)
    case DoRepeat(mode) => s.(repeatMode := mode)
    case DoBegin(id) => Begin(s, id)
    case DoBeginEnqueue => BeginEnqueue(s)
    case DoHydrated(gen, ok) => Hydrated(s, gen, ok)
    case DoResolved(gen, answer) => ResolvedTo(s, gen, answer)
    case DoAnnounce(gen) => Announce(s, gen)
    case DoSound(gen) => Sound(s, gen)
    case DoReturned(gen, ok) => Returned(s, gen, ok)
    case DoAutoPlay(after, shuffled) => AutoPlay(s, after, shuffled)
    case DoNext => Next(s)
    case DoSkip => Skip(s)
    case DoStop => Stop(s)
    case DoPrevious => Previous(s)
    case DoFinished(src, shuffled) => Finished(s, src, shuffled)
    case DoFailed(src) => Failed(s, src)
    case DoAnnounceNow(id, url) => AnnounceNow(s, id, url)
    case DoRestore(id, url, on, mode) => Restore(s, id, url, on, mode)
  }

  /** The list handed to a shuffling step is a permutation of the ids that step shuffles. */
  ghost predicate Enabled(s: State, a: Action) {
    match a
    case DoShuffle(on, shuffled) => on ==> IsShuffleOf(shuffled, s.queue)
    case DoAutoPlay(_, shuffled) => IsShuffleOf(shuffled, Missing(s))
    case DoFinished(src, shuffled) =>
      Matches(s, src) ==> IsShuffleOf(shuffled, Missing(AfterFinish(s)))
    case _ => true
  }

  /** The state in which a matching FINISHED event looks for the next track. */
  function AfterFinish(s: State): State
    requires s.current.Some?
  {
    var s1 := ClearNowPlaying(s);
    if s.detached.None? then DeleteRow(s1, s.current.value) else s1
  }

  /** The table lists its rows once each, in id order. */
  ghost predicate RowsOk(s: State) {
    && Ascending(s.queue)
    && forall id :: id in s.queue <==> id in s.media
  }

  /** The process starts: the table holds whatever rows an earlier one left, everything else is new. */
  ghost predicate Boots(s: State) {
    RowsOk(s) && s == INITIAL.(queue := s.queue, media := s.media)
  }

  /** `run` lists the successive states of some interleaving, `acts` the steps between them. */
  ghost predicate IsRun(run: seq<State>, acts: seq<Action>) {
    && |run| == |acts| + 1
    && Boots(run[0])
    && forall i :: 0 <= i < |acts| ==> Enabled(run[i], acts[i]) && run[i + 1] == Step(run[i], acts[i])
  }
}
