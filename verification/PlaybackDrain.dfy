/**
 Playing a queue to its end: every FINISHED event matches, every look-up succeeds, nobody else acts.
 Each finish drops the finished row and starts one of the others; the order of the starts is computed
 here in closed form for the three modes that terminate.
 */
module PlaybackDrain {
  import opened Collections
  import opened Playback
  import opened PlaybackShuffle

  /** What `random.shuffle` may do with any list. */
  ghost predicate Shuffles(rnd: seq<Id> -> seq<Id>) {
    forall ids: seq<Id> :: multiset(rnd(ids)) == multiset(ids)
  }

  function PlayUrl(s: State, item: Id, link: Id -> Url): Url
    requires item in s.media
  {
    if s.media[item].Direct? then s.media[item].source else link(item)
  }

  /** Lets the request at `gen` succeed at every step it still has to take. */
  function Settle(s: State, gen: nat, url: Url): State {
    var s1 := Hydrated(s, gen, true);
    var s2 := ResolvedTo(s1, gen, Some(url));
    Returned(Sound(Announce(s2, gen), gen), gen, true)
  }

  /** One FINISHED event for the playing source, and the start it leads to. */
  function Finish(s: State, rnd: seq<Id> -> seq<Id>, link: Id -> Url): State
    requires s.current.Some?
  {
    var t := Finished(s, s.url, rnd(Missing(AfterFinish(s))));
    if t.generation == s.generation || t.pending.None? then t
    else Settle(t, t.generation, link(t.pending.value))
  }

  /** A queued track is playing from a source that can be matched; repeat is none or all. */
  ghost predicate Playing(s: State, link: Id -> Url) {
    && Ok(s)
    && s.current.Some? && s.current.value in s.queue && s.detached.None?
    && s.url != ""
    && s.repeatMode != RepeatOne
    && forall id :: id in s.media ==> PlayUrl(s, id, link) != ""
  }

  ghost predicate Idle(s: State) {
    Ok(s) && s.current.None?
  }

  /** What one successful start adds to the log. */
  function StartLog(gen: nat, item: Id, url: Url): seq<Event> {
    [Took(gen), Play(gen, item, url), History(gen, item)]
  }

  ghost predicate SameRows(s: State, t: State) {
    && t.queue == s.queue && t.media == s.media
    && t.shuffleOn == s.shuffleOn && t.shuffle == s.shuffle && t.repeatMode == s.repeatMode
  }

  ghost predicate Waiting(s: State, gen: nat, item: Id, stage: Stage) {
    gen == s.generation && gen in s.flight && s.flight[gen] == Request(Some(item), false, stage)
  }

  lemma Resolves(s: State, gen: nat, item: Id, stage: Stage, url: Url)
    requires Waiting(s, gen, item, stage) && (stage == Hydrating || stage == Resolving || stage.Resolved?)
    ensures
      var t := ResolvedTo(Hydrated(s, gen, true), gen, Some(url));
      && SameRows(s, t) && t.index == s.index && t.log == s.log
      && Waiting(t, gen, item, Resolved(if stage.Resolved? then stage.url else url))
  {
  }

  lemma GoesOnAir(s: State, gen: nat, item: Id, url: Url)
    requires Waiting(s, gen, item, Resolved(url))
    ensures
      var t := Announce(s, gen);
      && SameRows(s, t) && Waiting(t, gen, item, Announced(url)) && t.log == s.log
      && t.current == Some(item) && t.url == url && t.detached.None?
      && t.index == (if s.shuffleOn && item in s.shuffle then IndexOf(s.shuffle, item) else s.index)
  {
  }

  lemma StaysOnAir(s: State, gen: nat, item: Id, url: Url)
    requires Waiting(s, gen, item, Announced(url))
    ensures
      var t := Returned(Sound(s, gen), gen, true);
      && SameRows(s, t) && t.index == s.index
      && t.current == s.current && t.url == s.url && t.detached == s.detached
      && t.log == s.log + [Play(gen, item, url), History(gen, item)]
  {
    var t := Sound(s, gen);
    assert Waiting(t, gen, item, Sounding(url)) && SameRows(s, t);
    assert s.log + [Play(gen, item, url)] + [History(gen, item)] == s.log + [Play(gen, item, url), History(gen, item)];
  }

  lemma BeginWaits(s: State, item: Id) returns (stage: Stage)
    requires item in s.media
    ensures
      var t := Begin(s, item);
      && Waiting(t, s.generation + 1, item, stage) && SameRows(s, t) && t.index == s.index
      && t.pending == Some(item) && t.log == s.log + [Took(s.generation + 1)]
    ensures
      match s.media[item]
      case Direct(source) => stage == Resolved(source)
      case Netease => stage == Resolving
      case Bilibili => stage == Hydrating
  {
    stage := Begin(s, item).flight[s.generation + 1].stage;
  }

  /** A request that succeeds takes one generation, calls `voice.play` once for its row and writes one
      history row; of the queue state it changes nothing but the shuffle index. */
  lemma BeginSettles(s: State, item: Id, link: Id -> Url)
    requires item in s.media
    ensures Begin(s, item).generation == s.generation + 1 && Begin(s, item).pending == Some(item)
    ensures
      var t := Settle(Begin(s, item), s.generation + 1, link(item));
      && SameRows(s, t)
      && t.current == Some(item) && t.url == PlayUrl(s, item, link) && t.detached.None?
      && t.index == (if s.shuffleOn && item in s.shuffle then IndexOf(s.shuffle, item) else s.index)
      && t.log == s.log + StartLog(s.generation + 1, item, PlayUrl(s, item, link))
  {
    hide Begin, Hydrated, ResolvedTo, Announce, Sound, Returned;
    var gen := s.generation + 1;
    var stage := BeginWaits(s, item);
    var s0 := Begin(s, item);
    Resolves(s0, gen, item, stage, link(item));
    var s2 := ResolvedTo(Hydrated(s0, gen, true), gen, Some(link(item)));
    GoesOnAir(s2, gen, item, PlayUrl(s, item, link));
    StaysOnAir(Announce(s2, gen), gen, item, PlayUrl(s, item, link));
    assert s.log + [Took(gen)] + [Play(gen, item, PlayUrl(s, item, link)), History(gen, item)]
        == s.log + StartLog(gen, item, PlayUrl(s, item, link));
  }

  // ---------------------------------------------------------------- one finish

  function Rest(s: State): seq<Id>
    requires s.current.Some?
  {
    Remove(s.queue, s.current.value)
  }

  /** The shuffled order once the finished track is gone and the unlisted rows are appended. */
  function Order(s: State, rnd: seq<Id> -> seq<Id>): seq<Id>
    requires s.current.Some?
  {
    Remove(s.shuffle, s.current.value) + rnd(Missing(AfterFinish(s)))
  }

  /** Where the index stands after the removal. */
  function Back(s: State): int
    requires s.current.Some?
  {
    if s.current.value in s.shuffle && IndexOf(s.shuffle, s.current.value) <= s.index
    then s.index - 1 else s.index
  }

  /** Position in the order of the track that starts next. */
  function Upcoming(s: State, rnd: seq<Id> -> seq<Id>): Option<nat>
    requires s.current.Some?
  {
    if 0 <= Back(s) + 1 < |Order(s, rnd)| then Some(Back(s) + 1)
    else if s.repeatMode == RepeatAll && Order(s, rnd) != [] then Some(0)
    else None
  }

  /** What a finish adds to the log: the start of the track that is then the current one, or nothing. */
  ghost predicate Logged(s: State, t: State) {
    t.log == s.log + if t.current.Some? then StartLog(s.generation + 1, t.current.value, t.url) else []
  }

  /** The finished row, and only it, is gone before the next track is looked up. */
  lemma AfterFinishFacts(s: State, link: Id -> Url)
    requires Playing(s, link)
    ensures
      var t := AfterFinish(s);
      && Ok(t) && t.queue == Rest(s) && |t.queue| == |s.queue| - 1
      && t.shuffleOn == s.shuffleOn && t.repeatMode == s.repeatMode
      && t.current.None? && t.detached.None? && t.generation == s.generation && t.log == s.log
      && (forall id :: id in t.media ==> id in s.media && t.media[id] == s.media[id])
      && (s.shuffleOn ==> t.shuffle == Remove(s.shuffle, s.current.value) && t.index == Back(s))
  {
    ClearedNowKeepsOk(s);
    DeleteKeepsOk(ClearNowPlaying(s), s.current.value);
    AscendingNoDuplicates(s.queue);
    RemoveFacts(s.queue, s.current.value);
  }

  lemma StartKeepsPlaying(s: State, item: Id, link: Id -> Url, t: State)
    requires Ok(s) && item in s.queue && s.repeatMode != RepeatOne
    requires forall id :: id in s.media ==> PlayUrl(s, id, link) != ""
    requires t == Settle(Begin(s, item), s.generation + 1, link(item))
    ensures Playing(t, link) && SameRows(s, t) && t.current == Some(item) && Logged(s, t)
    ensures t.index == (if s.shuffleOn && item in s.shuffle then IndexOf(s.shuffle, item) else s.index)
  {
    hide Settle, Begin;
    BeginSettles(s, item, link);
  }

  lemma FinishPicksFirst(s: State, rnd: seq<Id> -> seq<Id>, link: Id -> Url)
    requires Playing(s, link) && !s.shuffleOn
    ensures
      var s1 := AfterFinish(s);
      Finish(s, rnd, link) ==
        if Rest(s) == [] || Rest(s)[0] !in s1.media then s1
        else Settle(Begin(s1, Rest(s)[0]), s1.generation + 1, link(Rest(s)[0]))
  {
    hide DeleteRow, Settle, Missing, PlaybackShuffle.Ok;
    AfterFinishFacts(s, link);
    var s1 := AfterFinish(s);
    assert NextInOrder(s1, None) == First(s1.queue);
  }

  lemma FinishInOrder(s: State, rnd: seq<Id> -> seq<Id>, link: Id -> Url)
    requires Playing(s, link) && !s.shuffleOn
    ensures
      var t := Finish(s, rnd, link);
      && t.queue == Rest(s) && !t.shuffleOn && Logged(s, t)
      && (if Rest(s) == [] then Idle(t) else Playing(t, link) && t.current == Some(Rest(s)[0]))
  {
    hide Finish, Begin, Settle, AfterFinish, Rest, ShuffleOk;
    AfterFinishFacts(s, link);
    FinishPicksFirst(s, rnd, link);
    if Rest(s) != [] {
      StartKeepsPlaying(AfterFinish(s), Rest(s)[0], link, Finish(s, rnd, link));
    }
  }

  /** The state in which a finish in shuffle mode picks the next track. */
  function Synced(s: State, rnd: seq<Id> -> seq<Id>): State
    requires s.current.Some?
  {
    Sync(AfterFinish(s), rnd(Missing(AfterFinish(s))))
  }

  lemma SyncedFacts(s: State, rnd: seq<Id> -> seq<Id>, link: Id -> Url)
    requires Playing(s, link) && s.shuffleOn && Shuffles(rnd)
    ensures
      var t := Synced(s, rnd);
      && Ok(t) && t.queue == Rest(s) && t.shuffleOn && t.shuffle == Order(s, rnd) && t.index == Back(s)
      && t.repeatMode == s.repeatMode && t.generation == s.generation && t.current.None? && t.log == s.log
      && (forall id :: id in t.media ==> PlayUrl(t, id, link) != "")
      && multiset(Order(s, rnd)) == multiset(Rest(s))
  {
    hide DeleteRow;
    AfterFinishFacts(s, link);
    SyncRepairs(AfterFinish(s), rnd(Missing(AfterFinish(s))));
  }

  lemma FinishPicks(s: State, rnd: seq<Id> -> seq<Id>, link: Id -> Url)
    requires Playing(s, link) && s.shuffleOn
    requires Synced(s, rnd).generation == s.generation
    ensures
      var s2 := Synced(s, rnd);
      && (NextIndex(s2).None? ==> Finish(s, rnd, link) == s2)
      && (NextIndex(s2).Some? && s2.shuffle[NextIndex(s2).value] in s2.media ==>
            var item := s2.shuffle[NextIndex(s2).value];
            var s3 := s2.(index := NextIndex(s2).value);
            Finish(s, rnd, link) == Settle(Begin(s3, item), s3.generation + 1, link(item)))
  {
    hide DeleteRow, Settle, Missing, Surviving, PlaybackShuffle.Ok;
    AfterFinishFacts(s, link);
    var s2 := Synced(s, rnd);
    if NextIndex(s2).Some? {
      var item := s2.shuffle[NextIndex(s2).value];
      assert Finished(s, s.url, rnd(Missing(AfterFinish(s)))) == Begin(s2.(index := NextIndex(s2).value), item);
    }
  }

  lemma FinishShuffled(s: State, rnd: seq<Id> -> seq<Id>, link: Id -> Url)
    requires Playing(s, link) && s.shuffleOn && Shuffles(rnd)
    ensures multiset(Order(s, rnd)) == multiset(Rest(s))
    ensures
      var t := Finish(s, rnd, link);
      && t.queue == Rest(s) && t.shuffleOn && t.shuffle == Order(s, rnd) && t.repeatMode == s.repeatMode && Logged(s, t)
      && (match Upcoming(s, rnd)
          case None => Idle(t)
          case Some(next) => Playing(t, link) && t.current == Some(Order(s, rnd)[next]) && t.index == next)
  {
    hide Finish, Synced, Begin, Settle, Shuffles, Order, PlayUrl, PlaybackShuffle.Ok, NextIndex, Upcoming, SameRows, Logged;
    SyncedFacts(s, rnd, link);
    FinishPicks(s, rnd, link);
    var s2 := Synced(s, rnd);
    UpcomingIsNext(s, rnd, s2);
    if Upcoming(s, rnd).Some? {
      var next := Upcoming(s, rnd).value;
      ShuffledStart(s2, next, link);
      StartedFrom(s, s2, Finish(s, rnd, link));
    } else {
      IdleFrom(s, s2);
    }
  }

  lemma UpcomingIsNext(s: State, rnd: seq<Id> -> seq<Id>, s2: State)
    requires s.current.Some?
    requires s2.shuffle == Order(s, rnd) && s2.index == Back(s) && s2.repeatMode == s.repeatMode
    ensures NextIndex(s2) == Upcoming(s, rnd)
    ensures Upcoming(s, rnd).Some? ==> Upcoming(s, rnd).value < |Order(s, rnd)|
  {
    hide Order, Back;
  }

  lemma StartedFrom(s: State, s2: State, t: State)
    requires SameRows(s2, t) && Logged(s2, t) && s2.log == s.log && s2.generation == s.generation
    ensures t.queue == s2.queue && t.shuffleOn == s2.shuffleOn && t.shuffle == s2.shuffle && t.repeatMode == s2.repeatMode
    ensures Logged(s, t)
  {
  }

  lemma IdleFrom(s: State, t: State)
    requires t.log == s.log && t.current.None?
    ensures Logged(s, t)
  {
    assert s.log + [] == s.log;
  }

  lemma ShuffledStart(s: State, next: nat, link: Id -> Url)
    requires Ok(s) && s.shuffleOn && s.repeatMode != RepeatOne && next < |s.shuffle|
    requires forall id :: id in s.media ==> PlayUrl(s, id, link) != ""
    ensures s.shuffle[next] in s.media
    ensures
      var t := Settle(Begin(s.(index := next), s.shuffle[next]), s.generation + 1, link(s.shuffle[next]));
      Playing(t, link) && t.current == Some(s.shuffle[next]) && t.index == next && SameRows(s, t) && Logged(s, t)
  {
    hide Begin, Settle;
    var s3 := s.(index := next);
    var item := s.shuffle[next];
    StartKeepsPlaying(s3, item, link, Settle(Begin(s3, item), s.generation + 1, link(item)));
    var at := IndexOf(s.shuffle, item);
    assert s.shuffle[at] == item;
  }

  /** The queue is one shorter after each finish: the measure that ends every drain. */
  lemma FinishShortens(s: State, rnd: seq<Id> -> seq<Id>, link: Id -> Url)
    requires Playing(s, link) && Shuffles(rnd)
    ensures
      var t := Finish(s, rnd, link);
      && (Playing(t, link) || Idle(t))
      && Logged(s, t)
      && |t.queue| == |s.queue| - 1
      && forall id :: id in t.queue <==> id in s.queue && id != s.current.value
  {
    AfterFinishFacts(s, link);
    AscendingNoDuplicates(s.queue);
    RemoveFacts(s.queue, s.current.value);
    if s.shuffleOn {
      FinishShuffled(s, rnd, link);
    } else {
      FinishInOrder(s, rnd, link);
    }
  }

  // ---------------------------------------------------------------- whole drains

  /** The tracks started until playback stops, in the order of their starts. */
  ghost function Starts(s: State, rnd: seq<Id> -> seq<Id>, link: Id -> Url): seq<Id>
    requires Playing(s, link) && Shuffles(rnd)
    decreases |s.queue|
  {
    FinishShortens(s, rnd, link);
    var t := Finish(s, rnd, link);
    if t.current.None? then [] else [t.current.value] + Starts(t, rnd, link)
  }

  /** The state in which playback stops. */
  ghost function Drained(s: State, rnd: seq<Id> -> seq<Id>, link: Id -> Url): State
    requires Playing(s, link) && Shuffles(rnd)
    decreases |s.queue|
  {
    FinishShortens(s, rnd, link);
    var t := Finish(s, rnd, link);
    if t.current.None? then t else Drained(t, rnd, link)
  }

  lemma UnfoldStarts(s: State, rnd: seq<Id> -> seq<Id>, link: Id -> Url)
    requires Playing(s, link) && Shuffles(rnd)
    ensures
      var t := Finish(s, rnd, link);
      && (if t.current.None? then Starts(s, rnd, link) == [] && Drained(s, rnd, link) == t
          else Playing(t, link) && Starts(s, rnd, link) == [t.current.value] + Starts(t, rnd, link)
               && Drained(s, rnd, link) == Drained(t, rnd, link))
      && |t.queue| == |s.queue| - 1
  {
    hide Finish, Shuffles, Ok;
    FinishShortens(s, rnd, link);
  }

  /** Without shuffle, the other rows start in ascending id, and none is left. */
  lemma {:induction false} DrainInOrder(s: State, rnd: seq<Id> -> seq<Id>, link: Id -> Url)
    requires Playing(s, link) && Shuffles(rnd) && !s.shuffleOn
    ensures Starts(s, rnd, link) == Rest(s) && Ascending(Rest(s))
    ensures Drained(s, rnd, link).queue == []
    decreases |s.queue|
  {
    hide Finish, Shuffles, PlaybackShuffle.Ok, Starts, Drained, Remove;
    UnfoldStarts(s, rnd, link);
    FinishInOrder(s, rnd, link);
    RestAscends(s, link);
    var t := Finish(s, rnd, link);
    if Rest(s) != [] {
      DrainInOrder(t, rnd, link);
      RestOfFirst(t);
    }
  }

  lemma RestAscends(s: State, link: Id -> Url)
    requires Playing(s, link)
    ensures Ascending(Rest(s))
  {
    hide DeleteRow;
    AfterFinishFacts(s, link);
  }

  lemma RestOfFirst(s: State)
    requires s.queue != [] && s.current == Some(s.queue[0])
    ensures Rest(s) == s.queue[1..]
  {
  }

  /** The playing track is the one at the shuffle index, and every row is listed. */
  ghost predicate Aligned(s: State) {
    && s.shuffleOn && s.current.Some?
    && 0 <= s.index < |s.shuffle| && s.shuffle[s.index] == s.current.value
    && multiset(s.shuffle) == multiset(s.queue)
  }

  /** A list without its i-th entry. */
  function Cut(list: seq<Id>, i: nat): seq<Id>
    requires i < |list|
  {
    list[..i] + list[i + 1..]
  }

  lemma IndexIsUnique(list: seq<Id>, i: nat)
    requires NoDuplicates(list) && i < |list|
    ensures IndexOf(list, list[i]) == i
  {
    var at := IndexOf(list, list[i]);
    assert list[at] == list[i];
  }

  /** Removing the playing track from an aligned order leaves its two halves, and nothing is unlisted. */
  lemma AlignedOrder(s: State, rnd: seq<Id> -> seq<Id>, link: Id -> Url)
    requires Playing(s, link) && Shuffles(rnd) && Aligned(s)
    ensures Back(s) == s.index - 1
    ensures Order(s, rnd) == Cut(s.shuffle, s.index)
  {
    hide Shuffles;
    IndexIsUnique(s.shuffle, s.index);
    NothingMissing(s, link);
    NothingShuffled(rnd);
  }

  lemma NothingShuffled(rnd: seq<Id> -> seq<Id>)
    requires Shuffles(rnd)
    ensures rnd([]) == []
  {
    var none: seq<Id> := [];
    assert multiset(rnd(none)) == multiset(none);
    assert |rnd(none)| == |multiset(rnd(none))|;
  }

  lemma NothingMissing(s: State, link: Id -> Url)
    requires Playing(s, link) && Aligned(s)
    ensures Missing(AfterFinish(s)) == []
  {
    var s1 := AfterFinish(s);
    AlignedAfter(s, link);
    ListedNotMissing(s1);
  }

  lemma AlignedAfter(s: State, link: Id -> Url)
    requires Playing(s, link) && Aligned(s)
    ensures
      var s1 := AfterFinish(s);
      forall id :: id in s1.queue <==> id in s1.shuffle
  {
    hide DeleteRow;
    AfterFinishFacts(s, link);
    PermutationFacts(s.shuffle, s.queue);
    AscendingNoDuplicates(s.queue);
    RemoveFacts(s.shuffle, s.current.value);
    RemoveFacts(s.queue, s.current.value);
  }

  lemma ListedNotMissing(s: State)
    requires forall id :: id in s.queue <==> id in s.shuffle
    ensures Missing(s) == []
  {
    FilterAll(id => id in s.queue, s.shuffle);
    FilterNone(id => id !in Surviving(s), s.queue);
  }

  /** One finish of an aligned shuffle, on the lists alone. */
  lemma AlignedFinish(s: State, rnd: seq<Id> -> seq<Id>, link: Id -> Url)
    requires Playing(s, link) && Shuffles(rnd) && Aligned(s)
    ensures
      var t := Finish(s, rnd, link);
      var rest := Cut(s.shuffle, s.index);
      && t.repeatMode == s.repeatMode && t.shuffle == rest && multiset(t.queue) == multiset(rest)
      && (if s.index < |rest| || (s.repeatMode == RepeatAll && rest != []) then
            && Playing(t, link) && Aligned(t)
            && t.index == (if s.index < |rest| then s.index else 0)
            && t.current == Some(rest[t.index])
          else t.current.None?)
  {
    hide Finish, Order, Shuffles, PlaybackShuffle.Ok;
    FinishShuffled(s, rnd, link);
    AlignedOrder(s, rnd, link);
  }

  /** The order in which an aligned shuffle goes round once more. */
  function Round(list: seq<Id>, i: nat): seq<Id>
    requires i < |list|
  {
    list[i + 1..] + list[..i]
  }

  lemma RoundContinues(list: seq<Id>, i: nat)
    requires i < |list|
    ensures i < |Cut(list, i)| ==> Round(list, i) == [Cut(list, i)[i]] + Round(Cut(list, i), i)
    ensures i == |Cut(list, i)| && Cut(list, i) != [] ==> Round(list, i) == [Cut(list, i)[0]] + Round(Cut(list, i), 0)
    ensures Cut(list, i) == [] ==> Round(list, i) == []
  {
  }

  lemma EmptyBag(xs: seq<Id>, ys: seq<Id>)
    requires multiset(xs) == multiset(ys) && ys == []
    ensures xs == []
  {
    assert |xs| == |multiset(xs)|;
  }

  lemma {:induction false} DrainAlignedAll(s: State, rnd: seq<Id> -> seq<Id>, link: Id -> Url)
    requires Playing(s, link) && Shuffles(rnd) && Aligned(s) && s.repeatMode == RepeatAll
    ensures Starts(s, rnd, link) == Round(s.shuffle, s.index)
    ensures Drained(s, rnd, link).queue == []
    decreases |s.queue|
  {
    hide Finish, Shuffles, Playing, Starts, Drained, Cut, Round;
    UnfoldStarts(s, rnd, link);
    AlignedFinish(s, rnd, link);
    RoundContinues(s.shuffle, s.index);
    CutLength(s.shuffle, s.index);
    var t := Finish(s, rnd, link);
    if t.current.Some? {
      DrainAlignedAll(t, rnd, link);
    } else {
      EmptyBag(t.queue, Cut(s.shuffle, s.index));
    }
  }

  lemma CutLength(list: seq<Id>, i: nat)
    requires i < |list|
    ensures |Cut(list, i)| == |list| - 1
    ensures i < |Cut(list, i)| ==> list[i + 1..] == [Cut(list, i)[i]] + Cut(list, i)[i + 1..] && Cut(list, i)[..i] == list[..i]
    ensures i == |Cut(list, i)| ==> Cut(list, i) == list[..i] && list[i + 1..] == []
  {
  }

  lemma {:induction false} DrainAlignedNone(s: State, rnd: seq<Id> -> seq<Id>, link: Id -> Url)
    requires Playing(s, link) && Shuffles(rnd) && Aligned(s) && s.repeatMode == RepeatNone
    ensures Starts(s, rnd, link) == s.shuffle[s.index + 1..]
    ensures multiset(Drained(s, rnd, link).queue) == multiset(s.shuffle[..s.index])
    decreases |s.queue|
  {
    hide Finish, Shuffles, Playing, Starts, Drained, Cut;
    UnfoldStarts(s, rnd, link);
    AlignedFinish(s, rnd, link);
    CutLength(s.shuffle, s.index);
    var t := Finish(s, rnd, link);
    if t.current.Some? {
      DrainAlignedNone(t, rnd, link);
    }
  }

  /** A first finish aligns the list, wherever the playing track was. */
  lemma FinishAligns(s: State, rnd: seq<Id> -> seq<Id>, link: Id -> Url)
    requires Playing(s, link) && Shuffles(rnd) && s.shuffleOn
    ensures
      var t := Finish(s, rnd, link);
      && t.repeatMode == s.repeatMode && t.shuffle == Order(s, rnd) && multiset(t.shuffle) == multiset(t.queue)
      && t.queue == Rest(s)
      && (match Upcoming(s, rnd)
          case None => t.current.None?
          case Some(next) => Playing(t, link) && Aligned(t) && t.index == next)
  {
    hide Finish, Order, Shuffles, PlaybackShuffle.Ok, Back;
    FinishShuffled(s, rnd, link);
  }

  /**
   Shuffle with repeat all: every other queued row starts exactly once and the queue ends empty, also
   when the playing track is not the one at the index or rows were added since the list was made.
   */
  lemma DrainShuffleAll(s: State, rnd: seq<Id> -> seq<Id>, link: Id -> Url)
    requires Playing(s, link) && Shuffles(rnd) && s.shuffleOn && s.repeatMode == RepeatAll
    ensures multiset(Starts(s, rnd, link)) == multiset(Rest(s))
    ensures Drained(s, rnd, link).queue == []
  {
    hide Finish, Shuffles, Order, Starts, Drained, Rest, Back, RowsOk;
    UnfoldStarts(s, rnd, link);
    FinishAligns(s, rnd, link);
    var t := Finish(s, rnd, link);
    if t.current.Some? {
      DrainAlignedAll(t, rnd, link);
      WholeRound(t.shuffle, t.index);
    } else {
      EmptyBag(t.queue, t.shuffle);
      assert multiset(t.queue) == multiset{};
    }
  }

  lemma WholeRound(list: seq<Id>, i: nat)
    requires i < |list|
    ensures multiset([list[i]] + Round(list, i)) == multiset(list)
  {
    assert list == list[..i] + [list[i]] + list[i + 1..];
  }

  /**
   Shuffle with repeat none, the playing track at the index: what follows it in the list starts in
   list order, then the rows the list did not know; exactly the rows before the index are left.
   */
  lemma DrainShuffleNone(s: State, rnd: seq<Id> -> seq<Id>, link: Id -> Url)
    requires Playing(s, link) && Shuffles(rnd) && s.shuffleOn && s.repeatMode == RepeatNone
    requires 0 <= s.index < |s.shuffle| && s.shuffle[s.index] == s.current.value
    ensures Starts(s, rnd, link) == s.shuffle[s.index + 1..] + rnd(Missing(AfterFinish(s)))
    ensures multiset(Drained(s, rnd, link).queue) == multiset(s.shuffle[..s.index])
  {
    hide Finish, Shuffles, Starts, Drained, AfterFinish, Missing, PlaybackShuffle.Ok, Cut;
    UnfoldStarts(s, rnd, link);
    FinishAtIndex(s, rnd, link);
    var t := Finish(s, rnd, link);
    CutThen(s.shuffle, rnd(Missing(AfterFinish(s))), s.index);
    if t.current.Some? {
      DrainAlignedNone(t, rnd, link);
    }
  }

  /** The first finish, on the lists alone. */
  lemma FinishAtIndex(s: State, rnd: seq<Id> -> seq<Id>, link: Id -> Url)
    requires Playing(s, link) && Shuffles(rnd) && s.shuffleOn && s.repeatMode == RepeatNone
    requires 0 <= s.index < |s.shuffle| && s.shuffle[s.index] == s.current.value
    ensures
      var t := Finish(s, rnd, link);
      var order := Cut(s.shuffle, s.index) + rnd(Missing(AfterFinish(s)));
      && t.repeatMode == RepeatNone && multiset(t.queue) == multiset(order)
      && (if s.index < |order| then
            Playing(t, link) && Aligned(t) && t.shuffle == order && t.index == s.index && t.current == Some(order[s.index])
          else t.current.None?)
  {
    hide Finish, Shuffles, AfterFinish, Missing, PlaybackShuffle.Ok, Order, Back, Cut;
    FinishAligns(s, rnd, link);
    OrderAtIndex(s, rnd, link);
  }

  lemma OrderAtIndex(s: State, rnd: seq<Id> -> seq<Id>, link: Id -> Url)
    requires Playing(s, link) && s.shuffleOn
    requires 0 <= s.index < |s.shuffle| && s.shuffle[s.index] == s.current.value
    ensures Order(s, rnd) == Cut(s.shuffle, s.index) + rnd(Missing(AfterFinish(s))) && Back(s) == s.index - 1
  {
    hide AfterFinish, Missing;
    IndexIsUnique(s.shuffle, s.index);
  }

  lemma CutThen(list: seq<Id>, late: seq<Id>, i: nat)
    requires i < |list|
    ensures
      var o := Cut(list, i) + late;
      && (i < |o| ==> list[i + 1..] + late == [o[i]] + o[i + 1..] && o[..i] == list[..i])
      && (i >= |o| ==> list[i + 1..] + late == [] && o == list[..i])
  {
    var o := Cut(list, i) + late;
    assert o == list[..i] + (list[i + 1..] + late);
  }

  /** The tracks a log sent to the voice service, in order. */
  function Heard(log: seq<Event>): seq<Id> {
    if log == [] then []
    else
      var last := log[|log| - 1];
      Heard(log[..|log| - 1]) + if last.Play? then [last.item] else []
  }

  lemma HeardOne(log: seq<Event>, e: Event)
    ensures Heard(log + [e]) == Heard(log) + if e.Play? then [e.item] else []
  {
    assert (log + [e])[..|log|] == log;
  }

  lemma HeardStart(log: seq<Event>, gen: nat, item: Id, url: Url)
    ensures Heard(log + StartLog(gen, item, url)) == Heard(log) + [item]
  {
    hide Heard;
    HeardOne(log, Took(gen));
    HeardOne(log + [Took(gen)], Play(gen, item, url));
    HeardOne(log + [Took(gen)] + [Play(gen, item, url)], History(gen, item));
    assert log + StartLog(gen, item, url) == log + [Took(gen)] + [Play(gen, item, url)] + [History(gen, item)];
    assert Heard(log) + [] == Heard(log) && Heard(log) + [item] + [] == Heard(log) + [item];
  }

  /** A drain calls `voice.play` for exactly the tracks it starts, in that order. */
  lemma {:induction false} DrainPlaysStarts(s: State, rnd: seq<Id> -> seq<Id>, link: Id -> Url)
    requires Playing(s, link) && Shuffles(rnd)
    ensures Heard(Drained(s, rnd, link).log) == Heard(s.log) + Starts(s, rnd, link)
    decreases |s.queue|
  {
    hide Finish, Shuffles, Starts, Drained, Heard, StartLog, PlaybackShuffle.Ok;
    UnfoldStarts(s, rnd, link);
    FinishShortens(s, rnd, link);
    var t := Finish(s, rnd, link);
    if t.current.Some? {
      HeardStart(s.log, s.generation + 1, t.current.value, t.url);
      DrainPlaysStarts(t, rnd, link);
      assert Heard(s.log) + [t.current.value] + Starts(t, rnd, link) == Heard(s.log) + ([t.current.value] + Starts(t, rnd, link));
    } else {
      assert s.log + [] == s.log;
    }
  }

  /** No track starts twice, and a finished one never again. */
  lemma {:induction false} NoTrackStartsTwice(s: State, rnd: seq<Id> -> seq<Id>, link: Id -> Url)
    requires Playing(s, link) && Shuffles(rnd)
    ensures NoDuplicates(Starts(s, rnd, link))
    ensures forall id :: id in Starts(s, rnd, link) ==> id in s.queue && id != s.current.value
    decreases |s.queue|
  {
    hide Finish, Shuffles, Starts;
    FinishShortens(s, rnd, link);
    UnfoldStarts(s, rnd, link);
    var t := Finish(s, rnd, link);
    if t.current.Some? {
      NoTrackStartsTwice(t, rnd, link);
    }
  }

  // ---------------------------------------------------------------- drains are runs

  /** The steps of one finish: the event, and the stages of the request it begins. */
  function FinishActions(s: State, rnd: seq<Id> -> seq<Id>, link: Id -> Url): seq<Action>
    requires s.current.Some?
  {
    var first := DoFinished(s.url, rnd(Missing(AfterFinish(s))));
    var t := Step(s, first);
    if t.generation == s.generation || t.pending.None? then [first]
    else
      var gen := t.generation;
      [first, DoHydrated(gen, true), DoResolved(gen, Some(link(t.pending.value))),
       DoAnnounce(gen), DoSound(gen), DoReturned(gen, true)]
  }

  function StepAll(s: State, acts: seq<Action>): State
    decreases |acts|
  {
    if acts == [] then s else StepAll(Step(s, acts[0]), acts[1..])
  }

  /** A finish is a sequence of the player's own steps, each of them allowed where it happens. */
  lemma FinishIsSteps(s: State, rnd: seq<Id> -> seq<Id>, link: Id -> Url)
    requires Playing(s, link) && Shuffles(rnd)
    ensures Finish(s, rnd, link) == StepAll(s, FinishActions(s, rnd, link))
    ensures Enabled(s, FinishActions(s, rnd, link)[0])
    ensures forall i, t: State :: 0 < i < |FinishActions(s, rnd, link)| ==> Enabled(t, FinishActions(s, rnd, link)[i])
  {
    hide Finished, Hydrated, ResolvedTo, Announce, Sound, Returned, Ok, StepAll, Missing;
    var acts := FinishActions(s, rnd, link);
    var t := Step(s, acts[0]);
    FirstStep(s, acts);
    if |acts| > 1 {
      SettleIsSteps(t, t.generation, link(t.pending.value), acts[1..]);
    } else {
      NoStep(t);
    }
  }

  lemma FirstStep(s: State, acts: seq<Action>)
    requires acts != []
    ensures StepAll(s, acts) == StepAll(Step(s, acts[0]), acts[1..])
  {
  }

  lemma NoStep(s: State)
    ensures StepAll(s, []) == s
  {
  }

  lemma SettleIsSteps(s: State, gen: nat, url: Url, acts: seq<Action>)
    requires acts == [DoHydrated(gen, true), DoResolved(gen, Some(url)), DoAnnounce(gen), DoSound(gen), DoReturned(gen, true)]
    ensures Settle(s, gen, url) == StepAll(s, acts)
  {
    hide Hydrated, ResolvedTo, Announce, Sound, Returned, StepAll;
    Unroll(s, acts);
  }

  lemma Unroll(s: State, acts: seq<Action>)
    requires |acts| == 5
    ensures StepAll(s, acts) == Step(Step(Step(Step(Step(s, acts[0]), acts[1]), acts[2]), acts[3]), acts[4])
  {
    hide Step;
    var s1 := Step(s, acts[0]);
    var s2 := Step(s1, acts[1]);
    var s3 := Step(s2, acts[2]);
    var s4 := Step(s3, acts[3]);
    var s5 := Step(s4, acts[4]);
    assert acts[1..][1..] == acts[2..] && acts[2..][1..] == acts[3..] && acts[3..][1..] == acts[4..] && acts[4..][1..] == [];
    assert StepAll(s4, acts[4..]) == StepAll(s5, []);
    assert StepAll(s3, acts[3..]) == StepAll(s4, acts[4..]);
    assert StepAll(s2, acts[2..]) == StepAll(s3, acts[3..]);
    assert StepAll(s1, acts[1..]) == StepAll(s2, acts[2..]);
  }
}
