/**
 The player as `backend/main.py` keeps it: module variables that each unsuspended stretch of code
 reassigns in place.  The object's journal is a run of the steps in `Playback`: every method that a
 route, an event or a resumed request enters appends its step, so whatever is proved about runs holds
 of the object.  The methods under "parts" are what those steps are made of.
 */
module PlaybackEngine {
  import opened Collections
  import opened Numbers
  import opened Journals
  import opened Playback
  import PlaybackShuffle
  import PlaybackGenerations
  import PlaybackIds
  import PlaybackAdvance

  /** `random.shuffle`: swaps each position with an arbitrary one at or below it. */
  method RandomShuffle(ids: seq<Id>) returns (r: seq<Id>)
    ensures IsShuffleOf(r, ids)
  {
    r := ids;
    var i := |ids| - 1;
    while i > 0
      invariant |r| == |ids| && i < |r|
      invariant multiset(r) == multiset(ids)
    {
      var j :| 0 <= j <= i;
      r := r[i := r[j]][j := r[i]];
      i := i - 1;
    }
  }

  class Engine {
    var queue: seq<Id>
    var media: map<Id, Media>
    var queueIdFloor: nat
    var shuffleEnabled: bool
    var shuffleQueue: seq<Id>
    var currentShuffleIndex: int
    var repeatMode: Repeat
    var currentQueueItemId: Option<Id>
    var currentSourceUrl: Url
    var clearedPlayingItem: Option<Id>
    var playRequestGeneration: nat
    var pendingQueueItemId: Option<Id>
    var suspended: map<nat, Request>
    ghost var log: seq<Event>
    const journal: Journal<State, Action>

    ghost function View(): State
      reads this
    {
      State(queue, media, queueIdFloor, shuffleEnabled, shuffleQueue, currentShuffleIndex, repeatMode,
            currentQueueItemId, currentSourceUrl, clearedPlayingItem, playRequestGeneration,
            pendingQueueItemId, suspended, log)
    }

    /** The variables are where a run of the player's steps has led. */
    ghost predicate Valid()
      reads this, journal
    {
      IsRun(journal.run, journal.acts) && View() == journal.run[|journal.acts|]
    }

    /** The journal has grown by one step. */
    twostate predicate Did(a: Action)
      reads this, journal
    {
      Valid() && journal.acts == old(journal.acts) + [a] && journal.run == old(journal.run) + [View()]
    }

    /** The process starts on the rows the table holds. */
    constructor (rows: seq<Id>, sources: map<Id, Media>)
      requires Ascending(rows) && forall id :: id in rows <==> id in sources
      ensures Valid() && View() == INITIAL.(queue := rows, media := sources)
      ensures fresh(journal) && journal.acts == []
    {
      queue, media, queueIdFloor := rows, sources, 0;
      shuffleEnabled, shuffleQueue, currentShuffleIndex, repeatMode := false, [], -1, RepeatNone;
      currentQueueItemId, currentSourceUrl, clearedPlayingItem := None, "", None;
      playRequestGeneration, pendingQueueItemId, suspended, log := 0, None, map[], [];
      journal := new Journal(INITIAL.(queue := rows, media := sources));
    }

    ghost method Record(a: Action)
      requires IsRun(journal.run, journal.acts)
      requires Enabled(journal.run[|journal.acts|], a) && View() == Step(journal.run[|journal.acts|], a)
      modifies journal
      ensures Did(a)
    {
      hide Step, Enabled, Boots;
      journal.Note(a, View());
    }

    // -------------------------------------------------------------- what holds between steps

    /** The shuffled order is well formed, ids are kept apart and the log holds nothing stale. */
    lemma AlwaysConsistent()
      requires Valid()
      ensures PlaybackShuffle.Ok(View())
      ensures PlaybackIds.Ok(PlaybackIds.Of(View()))
      ensures PlaybackGenerations.Ok(PlaybackGenerations.Of(View()))
    {
      hide Step, Enabled;
      PlaybackShuffle.RunKeepsOk(journal.run, journal.acts, |journal.acts|);
      PlaybackIds.RunKeepsOk(journal.run, journal.acts, |journal.acts|);
      PlaybackGenerations.RunKeepsOk(journal.run, journal.acts, |journal.acts|);
    }

    /** Audio and history logged since step `i` belong to generations as new as the counter was then. */
    lemma NothingStaleSince(i: nat, k: nat)
      requires Valid() && i <= |journal.acts| && |journal.run[i].log| <= k < |log|
      ensures journal.run[i].generation <= log[k].gen
      ensures log[k].Play? ==> log[k].gen == PlaybackGenerations.Newest(log[..k])
    {
      hide Step, Enabled;
      PlaybackGenerations.NoStaleAudio(journal.run, journal.acts, i, |journal.acts|, k);
    }

    /** A request that step `i` superseded is in no log entry since. */
    lemma SupersededIsSilent(i: nat, gen: nat, k: nat)
      requires Valid() && i < |journal.acts| && gen in journal.run[i].flight
      requires PlaybackGenerations.Outdates(journal.run[i], journal.acts[i])
      requires |journal.run[i + 1].log| <= k < |log|
      ensures log[k].gen > gen
    {
      hide Step, Enabled;
      PlaybackGenerations.SupersededStaysSilent(journal.run, journal.acts, i, gen, |journal.acts|, k);
    }

    /** Once a clear has found rows, the next row gets an id above all that the queue held then or since. */
    lemma NextIdIsNew(clear: nat, k: nat, id: Id)
      requires Valid() && clear < |journal.acts| && journal.acts[clear].DoClear? && journal.run[clear].queue != []
      requires clear <= k <= |journal.acts| && id in journal.run[k].queue
      ensures NextId(View()) > id
    {
      hide Step, Enabled;
      PlaybackIds.NewIdsExceedOldOnes(journal.run, journal.acts, clear, k, |journal.acts|, id);
    }

    /** A detached track shares its id with no row, and its end or failure removes none. */
    lemma DetachedIsApart(src: Url)
      requires Valid() && clearedPlayingItem.Some?
      ensures clearedPlayingItem.value !in queue
      ensures Failed(View(), src).queue == queue
      ensures forall shuffled :: Finished(View(), src, shuffled).queue == queue
    {
      hide Step, Enabled, AutoPlay, DeleteRow, Begin;
      PlaybackIds.RunKeepsOk(journal.run, journal.acts, |journal.acts|);
      forall shuffled ensures Finished(View(), src, shuffled).queue == queue == Failed(View(), src).queue {
        if Matches(View(), src) {
          PlaybackIds.DetachedTrackDeletesNothing(journal.run, journal.acts, |journal.acts|, src, shuffled);
        }
      }
      assert Finished(View(), src, []).queue == queue;
    }

    /** Since a past clear left a queued track playing and nothing touched the record, its end starts the lowest row. */
    lemma ClearedTrackHandsOver(clear: nat, shuffled: seq<Id>)
      requires Valid() && clear < |journal.acts| && journal.acts[clear] == DoClear(false)
      requires PlaybackAdvance.LeavesPlaying(journal.run[clear]) && !shuffleEnabled
      requires forall k :: clear < k < |journal.acts| ==> PlaybackAdvance.KeepsRecord(journal.acts[k])
      ensures clearedPlayingItem == currentQueueItemId == journal.run[clear].current
      ensures PlaybackAdvance.HandsOver(View(), Finished(View(), currentSourceUrl, shuffled))
    {
      hide Step, Enabled;
      PlaybackAdvance.ClearedTrackHandsOver(journal.run, journal.acts, clear, |journal.acts|, shuffled);
    }

    // -------------------------------------------------------------- parts: rows

    /** `func.max(QueueItem.id)`, zero for an empty table. */
    method MaxId() returns (highest: nat)
      ensures highest == Highest(View())
    {
      highest := if queue == [] then 0 else queue[|queue| - 1];
    }

    method Insert(item: Media) returns (id: Id)
      modifies this
      ensures id == NextId(old(View())) && View() == InsertRow(old(View()), item)
    {
      var highest := MaxId();
      if queueIdFloor == 0 {
        id := highest + 1;
      } else {
        queueIdFloor := (if queueIdFloor < highest then highest else queueIdFloor) + 1;
        id := queueIdFloor;
      }
      queue := queue + [id];
      media := media[id := item];
    }

    method Delete(id: Id)
      modifies this
      ensures View() == DeleteRow(old(View()), id)
    {
      if id in media {
        queue := Remove(queue, id);
        media := media - {id};
        if shuffleEnabled && id in shuffleQueue {
          var removedIndex := IndexOf(shuffleQueue, id);
          shuffleQueue := Remove(shuffleQueue, id);
          if removedIndex <= currentShuffleIndex {
            currentShuffleIndex := currentShuffleIndex - 1;
          }
        }
      }
    }

    // -------------------------------------------------------------- parts: locked sections

    method SetNowPlaying(item: Option<Id>, url: Url)
      modifies this
      ensures View() == match item
                        case Some(id) => Playback.SetNowPlaying(old(View()), id, url)
                        case None => ClearNowPlaying(old(View()))
    {
      clearedPlayingItem := None;
      currentQueueItemId := item;
      currentSourceUrl := if item.None? then "" else url;
    }

    method TakeNowPlayingIfMatch(src: Url) returns (item: Option<Id>)
      modifies this
      ensures item == if Matches(old(View()), src) then old(currentQueueItemId) else None
      ensures View() == TakeIfMatch(old(View()), src)
    {
      if currentQueueItemId.None? || currentSourceUrl == "" || src != currentSourceUrl {
        return None;
      }
      item := currentQueueItemId;
      clearedPlayingItem := None;
      currentQueueItemId := None;
      currentSourceUrl := "";
    }

    method BeginPlayRequest(item: Option<Id>) returns (gen: nat)
      modifies this
      ensures View() == TakeGeneration(old(View()), item) && gen == playRequestGeneration
    {
      playRequestGeneration := playRequestGeneration + 1;
      pendingQueueItemId := item;
      log := log + [Took(playRequestGeneration)];
      gen := playRequestGeneration;
    }

    // -------------------------------------------------------------- parts: play requests

    /** The `finally` clause of a request. */
    method Finish(gen: nat)
      requires gen in suspended
      modifies this
      ensures View() == End(old(View()), gen)
    {
      var request := suspended[gen];
      suspended := suspended - {gen};
      if !request.enqueue && pendingQueueItemId == request.item {
        pendingQueueItemId := None;
      }
    }

    method PlayQueueItem(item: Id) returns (ok: bool)
      modifies this
      ensures ok == (item in old(media)) && View() == Begin(old(View()), item)
    {
      if item !in media {
        return false;
      }
      var gen := BeginPlayRequest(Some(item));
      var stage := match media[item] case Direct(source) => Resolved(source) case Netease => Resolving case Bilibili => Hydrating;
      suspended := suspended[gen := Request(Some(item), false, stage)];
      ok := true;
    }

    method EnqueueBilibiliNow()
      requires Valid()
      modifies this, journal
      ensures Did(DoBeginEnqueue)
      ensures View() == BeginEnqueue(old(View()))
    {
      var gen := BeginPlayRequest(None);
      suspended := suspended[gen := Request(None, true, Hydrating)];
      Record(DoBeginEnqueue);
    }

    method ResumeHydrated(gen: nat, ok: bool)
      requires Valid()
      modifies this, journal
      ensures Did(DoHydrated(gen, ok))
      ensures View() == Hydrated(old(View()), gen, ok)
    {
      if gen in suspended && suspended[gen].stage == Hydrating {
        if !ok || gen != playRequestGeneration {
          Finish(gen);
        } else {
          suspended := suspended[gen := suspended[gen].(stage := Resolving)];
        }
      }
      Record(DoHydrated(gen, ok));
    }

    method ResumeResolved(gen: nat, answer: Option<Url>)
      requires Valid()
      modifies this, journal
      ensures Did(DoResolved(gen, answer))
      ensures View() == ResolvedTo(old(View()), gen, answer)
    {
      if gen in suspended && suspended[gen].stage == Resolving {
        if answer.None? || gen != playRequestGeneration {
          Finish(gen);
        } else if suspended[gen].enqueue {
          var id := Insert(Bilibili);
          suspended := suspended[gen := Request(Some(id), true, Resolved(answer.value))];
        } else {
          suspended := suspended[gen := suspended[gen].(stage := Resolved(answer.value))];
        }
      }
      Record(DoResolved(gen, answer));
    }

    /** The locked section that moves the shuffle index. */
    method LocateInShuffle(item: Id)
      modifies this`currentShuffleIndex
      ensures currentShuffleIndex ==
        if shuffleEnabled && item in shuffleQueue then IndexOf(shuffleQueue, item) else old(currentShuffleIndex)
    {
      if shuffleEnabled && item in shuffleQueue {
        currentShuffleIndex := IndexOf(shuffleQueue, item);
      }
    }

    method WriteRecord(gen: nat)
      modifies this
      ensures View() == Announce(old(View()), gen)
    {
      if gen in suspended && suspended[gen].stage.Resolved? && suspended[gen].item.Some? {
        var request := suspended[gen];
        if !request.enqueue && gen != playRequestGeneration {
          Finish(gen);
        } else {
          if !request.enqueue {
            LocateInShuffle(request.item.value);
          }
          SetNowPlaying(request.item, request.stage.url);
          suspended := suspended[gen := request.(stage := Announced(request.stage.url))];
        }
      }
    }

    method ResumeAnnounce(gen: nat)
      requires Valid()
      modifies this, journal
      ensures Did(DoAnnounce(gen))
      ensures View() == Announce(old(View()), gen)
    {
      hide Announce;
      WriteRecord(gen);
      Record(DoAnnounce(gen));
    }

    method ResumeSound(gen: nat)
      requires Valid()
      modifies this, journal
      ensures Did(DoSound(gen))
      ensures View() == Sound(old(View()), gen)
    {
      if gen in suspended && suspended[gen].stage.Announced? && suspended[gen].item.Some? {
        var request := suspended[gen];
        if gen != playRequestGeneration {
          var taken := TakeNowPlayingIfMatch(request.stage.url);
          Finish(gen);
        } else {
          log := log + [Play(gen, request.item.value, request.stage.url)];
          suspended := suspended[gen := request.(stage := Sounding(request.stage.url))];
        }
      }
      Record(DoSound(gen));
    }

    method ResumeReturned(gen: nat, ok: bool)
      requires Valid()
      modifies this, journal
      ensures Did(DoReturned(gen, ok))
      ensures View() == Returned(old(View()), gen, ok)
    {
      if gen in suspended && suspended[gen].stage.Sounding? && suspended[gen].item.Some? {
        if ok && gen == playRequestGeneration {
          log := log + [History(gen, suspended[gen].item.value)];
        }
        Finish(gen);
      }
      Record(DoReturned(gen, ok));
    }

    // -------------------------------------------------------------- clearing

    /** The bulk DELETE, after the highest id was reserved. */
    method DeleteAllRows() returns (removedCount: nat)
      modifies this
      ensures removedCount == |old(queue)|
      ensures View() == old(View()).(floor := MaxNat(old(View()).floor, Highest(old(View()))),
                                     queue := [], media := map[], shuffle := [], index := -1)
    {
      var highest := MaxId();
      queueIdFloor := if queueIdFloor < highest then highest else queueIdFloor;
      removedCount := |queue|;
      queue, media := [], map[];
      shuffleQueue := [];
      currentShuffleIndex := -1;
    }

    method ClearQueue(stopPlayback: bool) returns (removedCount: nat)
      requires Valid()
      modifies this, journal
      ensures Did(DoClear(stopPlayback))
      ensures removedCount == |old(queue)| && View() == Clear(old(View()), stopPlayback)
      ensures stopPlayback ==> currentQueueItemId.None? && clearedPlayingItem.None?
      ensures !stopPlayback && PlaybackAdvance.LeavesPlaying(old(View())) ==>
        clearedPlayingItem == currentQueueItemId == old(currentQueueItemId)
    {
      AlwaysConsistent();
      PlaybackAdvance.ClearDetaches(View(), stopPlayback);
      var current := clearedPlayingItem;
      if !stopPlayback && current.None? && currentQueueItemId.Some? && currentQueueItemId.value in media {
        current := currentQueueItemId;
      }
      removedCount := DeleteAllRows();
      var gen := BeginPlayRequest(None);
      if stopPlayback {
        SetNowPlaying(None, "");
      } else {
        clearedPlayingItem := current;
      }
      Record(DoClear(stopPlayback));
    }

    // -------------------------------------------------------------- shuffle and automatic advance

    method SyncShuffle() returns (ghost shuffled: seq<Id>)
      modifies this
      ensures IsShuffleOf(shuffled, Missing(old(View()))) && View() == Sync(old(View()), shuffled)
    {
      var currentShuffleId :=
        if 0 <= currentShuffleIndex < |shuffleQueue| then Some(shuffleQueue[currentShuffleIndex]) else None;
      var queued := queue;
      shuffleQueue := Filter(id => id in queued, shuffleQueue);
      if currentShuffleId.Some? {
        if currentShuffleId.value in shuffleQueue {
          currentShuffleIndex := IndexOf(shuffleQueue, currentShuffleId.value);
        } else {
          currentShuffleIndex := -1;
        }
      }
      var listed := shuffleQueue;
      var missing := Filter(id => id !in listed, queued);
      assert listed == Surviving(old(View())) && missing == Missing(old(View()));
      var order := RandomShuffle(missing);
      shuffleQueue := shuffleQueue + order;
      shuffled := order;
    }

    /** The id the ordered branch of the automatic advance selects. */
    method SelectInOrder(startAfter: Option<Id>) returns (id: Option<Id>)
      ensures id == NextInOrder(View(), startAfter)
    {
      if startAfter.None? && currentQueueItemId.Some? && clearedPlayingItem.None? && repeatMode == RepeatOne {
        return currentQueueItemId;
      }
      var cursor := if startAfter.Some? then startAfter
                    else if clearedPlayingItem.Some? then None else currentQueueItemId;
      id := if cursor.Some? then FirstAbove(queue, cursor.value) else First(queue);
      if id.None? && repeatMode == RepeatAll {
        id := First(queue);
      }
    }

    /** The position both shuffled branches move on to. */
    method AdvanceShuffle() returns (next: Option<nat>)
      ensures next == NextIndex(View())
    {
      var index := currentShuffleIndex + 1;
      if 0 <= index < |shuffleQueue| {
        return Some(index);
      }
      return if repeatMode == RepeatAll && shuffleQueue != [] then Some(0) else None;
    }

    method AutoPlayNext(startAfter: Option<Id>) returns (ghost shuffled: seq<Id>)
      modifies this
      ensures IsShuffleOf(shuffled, Missing(old(View()))) && View() == AutoPlay(old(View()), startAfter, shuffled)
    {
      hide Begin, Sync, NextInOrder;
      shuffled := Missing(View());
      if shuffleEnabled {
        assert old(View()).shuffleOn;
        shuffled := SyncShuffle();
        var next := AdvanceShuffle();
        if next.Some? {
          currentShuffleIndex := next.value;
          var ok := PlayQueueItem(shuffleQueue[next.value]);
        }
      } else {
        var id := SelectInOrder(startAfter);
        if id.Some? {
          var ok := PlayQueueItem(id.value);
        }
      }
    }

    method SetShuffleEnabled(on: bool) returns (ghost shuffled: seq<Id>)
      requires Valid()
      modifies this, journal
      ensures Did(DoShuffle(on, shuffled))
      ensures on ==> IsShuffleOf(shuffled, old(queue))
      ensures View() == SetShuffle(old(View()), on, shuffled)
    {
      shuffleEnabled := on;
      shuffled := [];
      if on {
        shuffleQueue := RandomShuffle(queue);
        shuffled := shuffleQueue;
        if currentQueueItemId.Some? && currentQueueItemId.value in shuffleQueue {
          currentShuffleIndex := IndexOf(shuffleQueue, currentQueueItemId.value);
        } else {
          currentShuffleIndex := -1;
        }
      } else {
        shuffleQueue := [];
        currentShuffleIndex := -1;
      }
      Record(DoShuffle(on, shuffled));
    }

    // -------------------------------------------------------------- commands and voice events

    method DropActiveItem() returns (active: Option<Id>)
      modifies this
      ensures active == ActiveItem(old(View())) && View() == DropActive(old(View()))
    {
      active := if currentQueueItemId.Some? then currentQueueItemId else pendingQueueItemId;
      if active.Some? {
        Delete(active.value);
      }
    }

    method VoiceNext()
      requires Valid()
      modifies this, journal
      ensures Did(DoNext)
      ensures View() == Next(old(View()))
    {
      var active := DropActiveItem();
      var gen := BeginPlayRequest(None);
      if shuffleEnabled && shuffleQueue != [] {
        var next := AdvanceShuffle();
        if next.None? {
          SetNowPlaying(None, "");
        } else {
          currentShuffleIndex := next.value;
          var ok := PlayQueueItem(shuffleQueue[next.value]);
        }
      } else {
        SetNowPlaying(None, "");
      }
      Record(DoNext);
    }

    method VoiceSkip()
      requires Valid()
      modifies this, journal
      ensures Did(DoSkip)
      ensures View() == Skip(old(View()))
    {
      var active := DropActiveItem();
      var gen := BeginPlayRequest(None);
      if active.Some? {
        SetNowPlaying(None, "");
      }
      Record(DoSkip);
    }

    method ChatStop()
      requires Valid()
      modifies this, journal
      ensures Did(DoStop)
      ensures View() == Stop(old(View()))
    {
      var gen := BeginPlayRequest(None);
      SetNowPlaying(None, "");
      Record(DoStop);
    }

    /** The track `previous` goes to, and the request for it. */
    method StepBack()
      modifies this
      ensures View() == Previous(old(View()))
    {
      if shuffleEnabled && shuffleQueue != [] {
        var previous := currentShuffleIndex - 1;
        if previous < 0 && repeatMode == RepeatAll {
          previous := |shuffleQueue| - 1;
        }
        if 0 <= previous < |shuffleQueue| {
          currentShuffleIndex := previous;
          var ok := PlayQueueItem(shuffleQueue[previous]);
        }
      } else {
        var cursor := if currentQueueItemId.Some? then currentQueueItemId else pendingQueueItemId;
        if cursor.Some? {
          var id := LastBelow(queue, cursor.value);
          if id.Some? {
            var ok := PlayQueueItem(id.value);
          } else if repeatMode == RepeatAll && queue != [] {
            var ok := PlayQueueItem(queue[|queue| - 1]);
          }
        }
      }
    }

    method VoicePrevious()
      requires Valid()
      modifies this, journal
      ensures Did(DoPrevious)
      ensures View() == Previous(old(View()))
    {
      hide Previous;
      StepBack();
      Record(DoPrevious);
    }

    /** What a matching FINISHED event leads to. */
    method AdvanceAfter(src: Url) returns (ghost shuffled: seq<Id>)
      modifies this
      ensures Enabled(old(View()), DoFinished(src, shuffled)) && View() == Finished(old(View()), src, shuffled)
    {
      hide Begin, AutoPlay, DeleteRow, Missing;
      ghost var before := View();
      var detached := clearedPlayingItem.Some?;
      var item := TakeNowPlayingIfMatch(src);
      shuffled := [];
      if item.Some? {
        shuffled := Missing(AfterFinish(before));
        if repeatMode == RepeatOne && !detached {
          var ok := PlayQueueItem(item.value);
        } else {
          if !detached {
            Delete(item.value);
          }
          shuffled := AutoPlayNext(None);
        }
      }
    }

    method HandlePlaybackFinished(src: Url) returns (ghost shuffled: seq<Id>)
      requires Valid()
      modifies this, journal
      ensures Did(DoFinished(src, shuffled))
      ensures Enabled(old(View()), DoFinished(src, shuffled)) && View() == Finished(old(View()), src, shuffled)
      ensures old(clearedPlayingItem).Some? ==> queue == old(queue)
    {
      hide Finished, Missing, AfterFinish;
      if clearedPlayingItem.Some? {
        DetachedIsApart(src);
      }
      shuffled := AdvanceAfter(src);
      Record(DoFinished(src, shuffled));
    }

    method HandlePlaybackError(src: Url)
      requires Valid()
      modifies this, journal
      ensures Did(DoFailed(src))
      ensures View() == Failed(old(View()), src)
      ensures old(clearedPlayingItem).Some? ==> queue == old(queue)
    {
      if clearedPlayingItem.Some? {
        DetachedIsApart(src);
      }
      var item := TakeNowPlayingIfMatch(src);
      if item.Some? {
        Delete(item.value);
      }
      Record(DoFailed(src));
    }

    // -------------------------------------------------------------- routes that enter the parts directly

    method EnqueueItem(item: Media) returns (id: Id)
      requires Valid()
      modifies this, journal
      ensures Did(DoInsert(item)) && id == NextId(old(View())) && View() == InsertRow(old(View()), item)
      ensures id !in old(queue) && forall other :: other in old(queue) ==> other < id
    {
      AlwaysConsistent();
      RowsAreBelowNext();
      id := Insert(item);
      Record(DoInsert(item));
    }

    lemma RowsAreBelowNext()
      requires Ascending(queue)
      ensures forall id :: id in queue ==> id < NextId(View())
    {
    }

    method DeleteItem(id: Id)
      requires Valid()
      modifies this, journal
      ensures Did(DoDelete(id)) && View() == DeleteRow(old(View()), id)
    {
      Delete(id);
      Record(DoDelete(id));
    }

    method PlayItem(id: Id) returns (ok: bool)
      requires Valid()
      modifies this, journal
      ensures Did(DoBegin(id)) && ok == (id in old(media)) && View() == Begin(old(View()), id)
    {
      ok := PlayQueueItem(id);
      Record(DoBegin(id));
    }

    /** What a route does after the voice call it awaited. */
    method ContinueAutoPlay(startAfter: Option<Id>) returns (ghost shuffled: seq<Id>)
      requires Valid()
      modifies this, journal
      ensures Did(DoAutoPlay(startAfter, shuffled)) && View() == AutoPlay(old(View()), startAfter, shuffled)
      ensures !old(shuffleEnabled) && startAfter.Some? ==> PlaybackAdvance.Advances(old(View()), View(), startAfter.value)
    {
      hide AutoPlay, Missing, PlaybackAdvance.Advances;
      AlwaysConsistent();
      ghost var before := View();
      shuffled := AutoPlayNext(startAfter);
      if !before.shuffleOn {
        PlaybackAdvance.AutoPlayAdvances(before, startAfter, shuffled);
      }
      Record(DoAutoPlay(startAfter, shuffled));
    }

    method SetRepeatMode(mode: Repeat)
      requires Valid()
      modifies this, journal
      ensures Did(DoRepeat(mode)) && View() == old(View()).(repeatMode := mode)
    {
      repeatMode := mode;
      Record(DoRepeat(mode));
    }

    /** The end of a Netease or QQ play-now, which takes no generation. */
    method AnnouncePlayNow(id: Id, url: Url)
      requires Valid()
      modifies this, journal
      ensures Did(DoAnnounceNow(id, url)) && View() == AnnounceNow(old(View()), id, url)
    {
      SetNowPlaying(Some(id), url);
      Record(DoAnnounceNow(id, url));
    }

    /** The locked section in which a restored process takes over the modes. */
    method RestoreModes(id: Id, shuffled: bool, mode: Repeat)
      modifies this`shuffleEnabled, this`repeatMode, this`shuffleQueue, this`currentShuffleIndex
      ensures shuffleEnabled == shuffled && repeatMode == mode && shuffleQueue == (if shuffled then queue else [])
      ensures currentShuffleIndex == if shuffled && id in queue then IndexOf(queue, id) else -1
    {
      shuffleEnabled, repeatMode := shuffled, mode;
      shuffleQueue := if shuffled then queue else [];
      currentShuffleIndex := if id in shuffleQueue then IndexOf(shuffleQueue, id) else -1;
    }

    /** The row is looked up, then the two locked sections run. */
    method TakeOver(id: Id, url: Url, shuffled: bool, mode: Repeat) returns (restored: bool)
      modifies this
      ensures restored == (id in old(media)) && View() == Restore(old(View()), id, url, shuffled, mode)
    {
      restored := id in media;
      if restored {
        SetNowPlaying(Some(id), url);
        RestoreModes(id, shuffled, mode);
      }
    }

    method RestoreCheckpoint(id: Id, url: Url, shuffled: bool, mode: Repeat) returns (restored: bool)
      requires Valid()
      modifies this, journal
      ensures Did(DoRestore(id, url, shuffled, mode)) && restored == (id in old(media))
      ensures View() == Restore(old(View()), id, url, shuffled, mode)
    {
      hide Restore;
      restored := TakeOver(id, url, shuffled, mode);
      Record(DoRestore(id, url, shuffled, mode));
    }
  }
}
