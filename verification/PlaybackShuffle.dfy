/** The shuffled order stays well formed in every interleaving, and the automatic advance repairs it. */
module PlaybackShuffle {
  import opened Collections
  import opened Playback

  /** Duplicate-free, only queued ids, empty while shuffle is off, and an index inside it or -1. */
  ghost predicate ShuffleOk(s: State) {
    && NoDuplicates(s.shuffle)
    && (forall id :: id in s.shuffle ==> id in s.queue)
    && (!s.shuffleOn ==> s.shuffle == [])
    && -1 <= s.index
    && (s.index < |s.shuffle| || s.index == -1)
  }

  ghost predicate Ok(s: State) {
    RowsOk(s) && ShuffleOk(s)
  }

  lemma AscendingNoDuplicates(xs: seq<int>)
    requires Ascending(xs)
    ensures NoDuplicates(xs)
  {
  }

  lemma InsertKeepsOk(s: State, media: Media)
    requires Ok(s)
    ensures Ok(InsertRow(s, media))
  {
    var t := InsertRow(s, media);
    forall i, j | 0 <= i < j < |t.queue| ensures t.queue[i] < t.queue[j] {
      assert t.queue[i] <= Highest(s);
    }
  }

  lemma DeleteKeepsOk(s: State, id: Id)
    requires Ok(s)
    ensures Ok(DeleteRow(s, id))
  {
    if id in s.media {
      AscendingNoDuplicates(s.queue);
      RemoveFacts(s.queue, id);
      RemoveFacts(s.shuffle, id);
    }
  }

  lemma BeginKeepsOk(s: State, id: Id)
    requires Ok(s)
    ensures Ok(Begin(s, id))
  {
  }

  /** While only queued ids are listed, repairing drops none. */
  lemma AllSurvive(s: State)
    requires Ok(s)
    ensures Surviving(s) == s.shuffle
    ensures Missing(s) == Filter(id => id !in s.shuffle, s.queue)
  {
    FilterAll(id => id in s.queue, s.shuffle);
    SameFilter(id => id !in Surviving(s), id => id !in s.shuffle, s.queue);
  }

  /** The listed ids and the missing ones are the queue. */
  lemma ListedAndMissing(s: State, shuffled: seq<Id>)
    requires Ok(s) && IsShuffleOf(shuffled, Missing(s))
    ensures NoDuplicates(s.shuffle + shuffled)
    ensures forall id :: id in s.shuffle + shuffled <==> id in s.queue
    ensures multiset(s.shuffle + shuffled) == multiset(s.queue)
  {
    AllSurvive(s);
    AscendingNoDuplicates(s.queue);
    FilterNoDuplicates(id => id !in s.shuffle, s.queue);
    FilterMembers(id => id !in s.shuffle, s.queue);
    hide Missing, Filter;
    PermutationFacts(Missing(s), shuffled);
    var list := s.shuffle + shuffled;
    forall i, j | 0 <= i < j < |list| ensures list[i] != list[j] {
      if i < |s.shuffle| <= j {
        assert list[j] in shuffled;
      }
    }
    SameMembersSameMultiset(list, s.queue);
  }

  /**
   Whatever order `random.shuffle` gives the missing ids, the repaired list is a permutation of the
   queue that starts with the old list, and the index still points at the same entry.
   */
  lemma SyncRepairs(s: State, shuffled: seq<Id>)
    requires Ok(s) && s.shuffleOn && IsShuffleOf(shuffled, Missing(s))
    ensures Ok(Sync(s, shuffled))
    ensures Sync(s, shuffled).shuffle == s.shuffle + shuffled
    ensures Sync(s, shuffled).index == s.index
    ensures multiset(Sync(s, shuffled).shuffle) == multiset(s.queue)
  {
    hide Missing, Surviving;
    AllSurvive(s);
    ListedAndMissing(s, shuffled);
    if 0 <= s.index < |s.shuffle| {
      var at := IndexOf(s.shuffle, s.shuffle[s.index]);
      assert s.shuffle[at] == s.shuffle[s.index];
    }
  }

  lemma {:induction false} SameFilter(p: Id -> bool, q: Id -> bool, xs: seq<Id>)
    requires forall x :: x in xs ==> p(x) == q(x)
    ensures Filter(p, xs) == Filter(q, xs)
  {
    if xs != [] {
      SameFilter(p, q, xs[1..]);
    }
  }

  lemma AutoPlayKeepsOk(s: State, startAfter: Option<Id>, shuffled: seq<Id>)
    requires Ok(s) && IsShuffleOf(shuffled, Missing(s))
    ensures Ok(AutoPlay(s, startAfter, shuffled))
  {
    if s.shuffleOn {
      SyncRepairs(s, shuffled);
      PickKeepsOk(Sync(s, shuffled));
    } else if NextInOrder(s, startAfter).Some? {
      BeginKeepsOk(s, NextInOrder(s, startAfter).value);
    }
  }

  /** Moving on to the next shuffled track. */
  lemma PickKeepsOk(s: State)
    requires Ok(s)
    ensures NextIndex(s).Some? ==>
      var next := NextIndex(s).value;
      next < |s.shuffle| && Ok(Begin(s.(index := next), s.shuffle[next]))
  {
    if NextIndex(s).Some? {
      var next := NextIndex(s).value;
      BeginKeepsOk(s.(index := next), s.shuffle[next]);
    }
  }

  lemma ClearedNowKeepsOk(s: State)
    requires Ok(s)
    ensures Ok(ClearNowPlaying(s)) && Ok(TakeGeneration(s, None))
  {
  }

  lemma FinishedKeepsOk(s: State, src: Url, shuffled: seq<Id>)
    requires Ok(s) && Enabled(s, DoFinished(src, shuffled))
    ensures Ok(Finished(s, src, shuffled))
  {
    if Matches(s, src) {
      ClearedNowKeepsOk(s);
      DeleteKeepsOk(ClearNowPlaying(s), s.current.value);
      if s.repeatMode != RepeatOne || s.detached.Some? {
        AutoPlayKeepsOk(AfterFinish(s), None, shuffled);
      }
    }
  }

  lemma DropKeepsOk(s: State)
    requires Ok(s)
    ensures Ok(TakeGeneration(DropActive(s), None))
  {
    if ActiveItem(s).Some? {
      DeleteKeepsOk(s, ActiveItem(s).value);
    }
    ClearedNowKeepsOk(DropActive(s));
  }

  lemma NextKeepsOk(s: State)
    requires Ok(s)
    ensures Ok(Next(s)) && Ok(Skip(s))
  {
    DropKeepsOk(s);
    var s1 := TakeGeneration(DropActive(s), None);
    ClearedNowKeepsOk(s1);
    PickKeepsOk(s1);
  }

  lemma PreviousKeepsOk(s: State)
    requires Ok(s)
    ensures Ok(Previous(s))
  {
    if s.shuffleOn && s.shuffle != [] {
      if s.index - 1 >= 0 {
        BeginKeepsOk(s.(index := s.index - 1), s.shuffle[s.index - 1]);
      } else {
        BeginKeepsOk(s.(index := |s.shuffle| - 1), s.shuffle[|s.shuffle| - 1]);
      }
    } else if ActiveItem(s).Some? {
      match LastBelow(s.queue, ActiveItem(s).value)
      case Some(id) => BeginKeepsOk(s, id);
      case None => if s.queue != [] { BeginKeepsOk(s, s.queue[|s.queue| - 1]); }
    }
  }

  lemma SetShuffleKeepsOk(s: State, on: bool, shuffled: seq<Id>)
    requires Ok(s) && (on ==> IsShuffleOf(shuffled, s.queue))
    ensures Ok(SetShuffle(s, on, shuffled))
  {
    if on {
      AscendingNoDuplicates(s.queue);
      PermutationFacts(s.queue, shuffled);
    }
  }

  /** Only these fields matter. */
  lemma SameOrderKeepsOk(s: State, t: State)
    requires Ok(s)
    requires t.queue == s.queue && t.media == s.media
    requires t.shuffleOn == s.shuffleOn && t.shuffle == s.shuffle && t.index == s.index
    ensures Ok(t)
  {
  }

  lemma AnswersKeepOk(s: State, gen: nat, ok: bool)
    requires Ok(s)
    ensures Ok(Hydrated(s, gen, ok)) && Ok(Returned(s, gen, ok))
  {
    hide Ok;
    SameOrderKeepsOk(s, Hydrated(s, gen, ok));
    SameOrderKeepsOk(s, Returned(s, gen, ok));
  }

  lemma ResolvedKeepsOk(s: State, gen: nat, answer: Option<Url>)
    requires Ok(s)
    ensures Ok(ResolvedTo(s, gen, answer))
  {
    hide Ok, InsertRow;
    InsertKeepsOk(s, Bilibili);
    var t := ResolvedTo(s, gen, answer);
    if gen in s.flight && s.flight[gen].stage == Resolving && answer.Some? && IsNewest(s, gen) && s.flight[gen].enqueue {
      SameOrderKeepsOk(InsertRow(s, Bilibili), t);
    } else {
      SameOrderKeepsOk(s, t);
    }
  }

  lemma AnnounceKeepsOk(s: State, gen: nat)
    requires Ok(s)
    ensures Ok(Announce(s, gen))
  {
  }

  lemma SoundKeepsOk(s: State, gen: nat)
    requires Ok(s)
    ensures Ok(Sound(s, gen))
  {
    hide Ok;
    SameOrderKeepsOk(s, Sound(s, gen));
  }

  /** The restored order is the queue itself. */
  lemma RestoreKeepsOk(s: State, id: Id, url: Url, on: bool, mode: Repeat)
    requires Ok(s)
    ensures Ok(Restore(s, id, url, on, mode))
  {
    AscendingNoDuplicates(s.queue);
  }

  /** Every enable, disable, enqueue, delete, clear, next, previous, play and finish step keeps it. */
  lemma StepKeepsOk(s: State, a: Action)
    requires Ok(s) && Enabled(s, a)
    ensures Ok(Step(s, a))
  {
    match a
    case DoInsert(media) => InsertKeepsOk(s, media);
    case DoDelete(id) => DeleteKeepsOk(s, id);
    case DoClear(stop) =>
    case DoShuffle(on, shuffled) => SetShuffleKeepsOk(s, on, shuffled);
    case DoRepeat(mode) =>
    case DoBegin(id) => BeginKeepsOk(s, id);
    case DoBeginEnqueue =>
    case DoHydrated(gen, ok) => AnswersKeepOk(s, gen, ok);
    case DoResolved(gen, answer) => ResolvedKeepsOk(s, gen, answer);
    case DoAnnounce(gen) => AnnounceKeepsOk(s, gen);
    case DoSound(gen) => SoundKeepsOk(s, gen);
    case DoReturned(gen, ok) => AnswersKeepOk(s, gen, ok);
    case DoAutoPlay(after, shuffled) => AutoPlayKeepsOk(s, after, shuffled);
    case DoNext => NextKeepsOk(s);
    case DoSkip => NextKeepsOk(s);
    case DoStop => ClearedNowKeepsOk(s);
    case DoPrevious => PreviousKeepsOk(s);
    case DoFinished(src, shuffled) => FinishedKeepsOk(s, src, shuffled);
    case DoFailed(src) =>
      if Matches(s, src) {
        ClearedNowKeepsOk(s);
        DeleteKeepsOk(ClearNowPlaying(s), s.current.value);
      }
    case DoAnnounceNow(id, url) =>
    case DoRestore(id, url, on, mode) => RestoreKeepsOk(s, id, url, on, mode);
  }

  lemma {:induction false} RunKeepsOk(run: seq<State>, acts: seq<Action>, i: nat)
    requires IsRun(run, acts) && i < |run|
    ensures forall k :: 0 <= k <= i ==> Ok(run[k])
  {
    if i > 0 {
      RunKeepsOk(run, acts, i - 1);
      StepKeepsOk(run[i - 1], acts[i - 1]);
    }
  }
}
