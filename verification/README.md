# Verified models of the music bot

The bot keeps a shared playback queue (Python), streams audio to TeamSpeak (Rust) and draws
visuals in the browser (JavaScript). Its correctness rests on several small state machines, codecs and
numeric loops whose promises only show over whole runs. Each has a Dafny module here; `dafny verify
dfyconfig.toml` checks them all.

| file | subject |
|---|---|
| `Playback.dfy` | the playback queue as a value, one function per unsuspended step |
| `PlaybackEngine.dfy` | the same steps as methods that reassign the module variables |
| `PlaybackShuffle.dfy` | the shuffled order in every interleaving |
| `PlaybackGenerations.dfy` | only the newest play request starts audio |
| `PlaybackIds.dfy` | row ids after a clear, and the track a clear leaves playing |
| `PlaybackAdvance.dfy` | which row a command or event starts, and what a clear leaves playing |
| `PlaybackDrain.dfy` | playing a queue to its end |
| `PlaybackClock.dfy` | pause, resume and seek against the expected position |
| `WsFanout.dfy` | bounded notification queues with replaceable positions |
| `PcmPipeline.dfy` | frame conservation between ffmpeg and the encoder |
| `Reverb.dfy` | circular buffers against the filter recurrences |
| `WebSocketFrames.dfy` | RFC 6455 frames over an arbitrarily cut stream |
| `TokenProtocol.dfy` | API tokens as subprotocol names |
| `BeatMap.dfy`, `BeatEngine.dfy` | beat grids and the lookups that rely on their order |
| `TempoTracker.dfy` | hit gating and tempo folding |
| `LyricAlignment.dfy` | greedy matching of translations to lyric lines |
| `PlaylistCache.dfy` | an LRU cache with expiry against its history |
| `CachePrune.dfy` | expiry and size-bounded eviction of cached files |
| `AudioCapture.dfy` | the generation-guarded capture of system audio |
| `Collections.dfy`, `Numbers.dfy`, `Text.dfy` | options, duplicate-free lists, clamps, white space |
| `Journals.dfy` | the run an object has been through, for proofs |

How the parts are modelled:

- A state machine is a datatype, a function per step, and lemmas about every run of steps. Where the
  source updates variables in place, a class has one method per step. The object keeps a ghost journal of
  its states and steps (or of its events): `Valid()` says that the journal is a run ending in the fields,
  every method that the outside enters appends its step, and lemmas of the class state what the theorems
  about runs then give for the object.
- One event loop runs the Python and JavaScript parts, so code between two awaits is one step. The
  playback model allows more: other steps may also run between the checks, the now-playing record and
  the `voice.play` call of a single request, and the continuation of a route after an awaited voice
  call may run at any time. Every interleaving of the real routes is a run of the modelled steps. Of a
  Netease or QQ play-now the inserted row and the now-playing record are steps; its `voice.play` and
  history row, which no generation guards, are not in the log.
- A run of the player starts from whatever rows the table holds when the process starts; a restart
  checkpoint may then be taken over.
- The Rust reader task and send loop are interleaved at every access to what they share.
- What providers, the network, the operating system, the clock and the user answer is a parameter of
  the step. `random.shuffle` is a method that may return any permutation.
- Floating-point samples, times and tempo values are reals.

Where the code does something other than one might expect, the model follows the code:

- A clear that finds the table empty reserves nothing, so ids can still come back after it
  (`PlaybackIds.ReuseIffNothingReserved`, `PlaybackIds.ReservedIffClearFoundRows`,
  `PlaybackIds.IdReturnsAfterEmptyClear`).
- The expiry pass of the cache pruning ignores the protected paths
  (`CachePrune.ProtectedFilesCanExpire`, `CachePrune.ProtectedFileExpires`).
- The browser and the deployment check offer different names for a token that begins or ends, inside the
  white space both languages trim, with a character only one of them trims: U+FEFF, U+001C to U+001F or
  U+0085 (`TokenProtocol.ClientsAgreeIff`, `TokenProtocol.TrimsDiffer`).
- Lyric lines less than 0.55 s apart can receive translations in the wrong order; from 0.55 s on they
  cannot, if simultaneous translations are tried in their order (`LyricAlignment.OrderKeptIff`). For
  simultaneous translations tried in an arbitrary order, and for lines to be independent of one another,
  the limit is 1.1 s (`LyricAlignment.OrderKeptForAnyTiesIff`, `LyricAlignment.IndependentIff`).
- Silent packets sent before the first frame arrives count towards a sustained underrun, so playback can fail
  at the first silent tick after that frame (`PcmPipeline.UnderrunIff`).
- `send_text_frame` round-trips payloads of any length that fits 64 bits, but its length field is a valid
  one only below 2^63 bytes (`WebSocketFrames.LengthFieldConforms`).

## Model

| member | source | states |
|---|---|---|
| PlaybackDrain.DrainInOrder | backend/main.py:966-1005 | Without shuffle, a run of matching FINISHED events starts all other rows in ascending id and empties the queue. |
| PlaybackDrain.DrainShuffleAll | backend/main.py:930-965 | Shuffle with repeat all starts every other queued row exactly once and empties the queue, wherever the playing track stands in the list. |
| PlaybackDrain.DrainShuffleNone | backend/main.py:930-965 | Shuffle with repeat none starts what follows the index in list order, then the unlisted rows, and leaves exactly the rows before the index. |
| PlaybackDrain.DrainAlignedAll | backend/main.py:952-965 | From the playing track at the index, repeat all goes round the list once: first what follows the index, then what precedes it. |
| PlaybackDrain.DrainAlignedNone | backend/main.py:952-965 | From the playing track at the index, repeat none starts the rest of the list and leaves what precedes the index. |
| PlaybackDrain.NoTrackStartsTwice | backend/main.py:4259-4269 | In any drain no track starts twice and the finished one never again. |
| PlaybackDrain.DrainPlaysStarts | backend/main.py:834-851 | The `voice.play` calls a drain logs are for exactly the tracks it starts, in order. |
| PlaybackDrain.FinishShortens | backend/main.py:4259-4269 | Each matching finish removes exactly the finished row, so the queue length decreases. |
| PlaybackDrain.FinishInOrder | backend/main.py:4259-4269 | Without shuffle a finish starts the lowest remaining row or goes idle. |
| PlaybackDrain.FinishShuffled | backend/main.py:925-965 | In shuffle mode a finish starts the track that moved into the removed slot, wrapping only with repeat all; the repaired list is a permutation of the queue. |
| PlaybackDrain.AlignedOrder | backend/main.py:868-877 | Removing the playing track from the shuffled order leaves its two halves and steps the index back by one. |
| PlaybackDrain.BeginSettles | backend/main.py:734-855 | A request that succeeds calls `voice.play` once, writes one history row, becomes the current track and changes only the shuffle index. |
| PlaybackDrain.FinishIsSteps | backend/main.py:4259-4269 | Each finish of a drain is a sequence of steps of the interleaved model, all allowed where they occur. |
| PlaybackGenerations.SupersededStaysSilent | backend/main.py:598-627 | After a later play, next, skip, stop or clear, an older request never calls `voice.play` and writes no history, in any interleaving. |
| PlaybackGenerations.NoStaleAudio | backend/main.py:734-855 | From any point of a run on, audio is started and history written only for generations at least as new as the counter at that point, each play being for the newest generation. |
| PlaybackGenerations.AudioInRequestOrder | backend/main.py:734-855 | Audio starts in the order of the requests and at most once per request; so do history rows. |
| PlaybackGenerations.HistoryOfNewest | backend/main.py:834-851 | A history row belongs to an earlier `voice.play` of the same request and row with no newer command in between. |
| PlaybackGenerations.CommandsOutdate | backend/main.py:598-611 | Playing a row, play-now, clear, next, skip and stop all raise the generation. |
| PlaybackGenerations.StepMoves | backend/main.py:598-627 | Every step of the player is at most three legal moves of the request protocol. |
| PlaybackGenerations.MoveKeepsOk | backend/main.py:614-627 | Every legal move keeps the log free of stale entries and every suspended request consistent with it. |
| PlaybackGenerations.NothingStale | backend/main.py:614-616 | In a permitted log no entry belongs to a generation older than one before it. |
| PlaybackIds.NewIdsExceedOldOnes | backend/models.py:73-91 | After a clear that found rows, an inserted id exceeds every id present at that clear or since. |
| PlaybackIds.ReuseIffNothingReserved | backend/models.py:84-91 | An id deleted right after its insertion is handed out again exactly while nothing is reserved. |
| PlaybackIds.ReservedIffClearFoundRows | backend/models.py:77-80 | Something is reserved exactly when some clear so far found rows. |
| PlaybackIds.IdReturnsAfterEmptyClear | backend/models.py:84-86 | A run in which id 1 comes back after a clear of an empty table. |
| PlaybackIds.DetachedTrackDeletesNothing | backend/main.py:884-918 | While a track plays on after a clear, no row has its id, its end or failure deletes no row, and in id order the lowest new row plays next. |
| PlaybackIds.StepKeepsOk | backend/main.py:888-906 | Every step keeps reserved ids above queued ones and a detached id apart from the queue, and never lowers the floor. |
| PlaybackIds.FloorNeverFalls | backend/models.py:77-91 | The id floor never falls over a run. |
| PlaybackShuffle.StepKeepsOk | backend/main.py:858-881 | Every enable, disable, enqueue, delete, clear, next, previous, play and finish keeps the shuffled list duplicate-free, within the queue, empty when off, and the index in range. |
| PlaybackShuffle.RunKeepsOk | backend/main.py:2727-2753 | The same over every run. |
| PlaybackShuffle.SyncRepairs | backend/main.py:930-952 | The repair before an automatic advance yields a permutation of the queue that begins with the old list, at the same index. |
| PlaybackShuffle.DeleteKeepsOk | backend/main.py:4879-4895 | Deleting a row keeps the list and the index consistent. |
| PlaybackAdvance.ClearedTrackHandsOver | backend/main.py:884-918 | From a clear that leaves a queued track playing until its end, through inserts, deletes, requests and further clears, the track stays detached under its id; its end removes no row and, in id order and under every repeat mode, starts the lowest one. |
| PlaybackAdvance.ClearDetaches | backend/main.py:884-912 | A clear without stop detaches exactly a queued playing track, or keeps the one detached before; a clear with stop leaves no record. |
| PlaybackAdvance.DetachedStays | backend/main.py:884-906 | A detached track stays so through every step that does not write the record. |
| PlaybackAdvance.FirstAboveFollows | backend/main.py:974-981 | The row found after the cursor is the lowest one above it; none is found exactly if there is none. |
| PlaybackAdvance.AutoPlayAdvances | backend/main.py:966-1005 | In id order the advance starts the lowest row above its cursor, the lowest of all past the last one with repeat all only, and the current one with repeat one. |
| PlaybackAdvance.NextAdvances | backend/main.py:2556-2593 | In id order next drops the active row, silences the player, and the advance after it starts the lowest remaining row above, wrapping with repeat all only. |
| PlaybackAdvance.SkipAdvances | backend/main.py:2597-2624 | So does skip; without an active row it only outdates older requests. |
| PlaybackAdvance.NextInShuffle | backend/main.py:2570-2585 | In shuffle mode next starts what follows the active track in the list, wrapping to the first with repeat all only. |
| PlaybackAdvance.LastBelowPrecedes | backend/main.py:2653-2658 | The row found before the cursor is the highest one below it; none is found exactly if there is none. |
| PlaybackAdvance.PreviousSteps | backend/main.py:2628-2680 | Previous starts the highest row below the active one, or the entry before the index; at the start the last one with repeat all only. |
| PlaybackAdvance.StopSilences | backend/main.py:3994-3999 | The chat stop keeps every row, clears the record and outdates older requests. |
| PlaybackAdvance.ShuffleFindsCurrent | backend/main.py:2727-2753 | After enabling shuffle the index is the place of the current row, or -1 if it is not listed. |
| PlaybackAdvance.StrangerIsIgnored | backend/main.py:571-595 | An event for another source, or for none, changes nothing. |
| PlaybackAdvance.FailureDropsRow | backend/main.py:4318-4323 | A playback error drops exactly the failed row and the record. |
| PlaybackAdvance.RepeatOneRepeats | backend/main.py:4261-4266 | With repeat one the end of a queued track starts it again and keeps every row. |
| PlaybackAdvance.SupersededWithdraws | backend/main.py:830-833 | A request superseded before its `voice.play` ends silently and withdraws its own record, never a newer one. |
| PlaybackAdvance.FailedLookUpWithdraws | backend/main.py:619-627 | A failed look-up ends the request and withdraws its own pending mark, no other. |
| PlaybackAdvance.PlayNowSettles | backend/main.py:3620-3691 | A Bilibili play-now that succeeds adds one row at the end, plays it and writes its history row. |
| PlaybackAdvance.InsertAddsRow | backend/models.py:84-91 | An enqueued row is the last one, under an id above all others and with its source. |
| PlaybackAdvance.RestoreTakesOver | backend/main.py:446-456 | A checkpoint makes its row current and puts the shuffle index on it. |
| PlaybackEngine.RandomShuffle | backend/main.py:950 | Shuffling in place yields some permutation. |
| PlaybackEngine.Engine.AlwaysConsistent | backend/main.py:858-881 | Between steps the object's shuffled order, ids and request log satisfy the invariants of the three theorem files. |
| PlaybackEngine.Engine.NothingStaleSince | backend/main.py:614-627 | Audio and history logged by the object since any of its past steps belong to generations as new as the counter was then. |
| PlaybackEngine.Engine.SupersededIsSilent | backend/main.py:598-627 | A request superseded by a past command of the object is in no log entry since. |
| PlaybackEngine.Engine.NextIdIsNew | backend/models.py:77-91 | After a clear of the object that found rows, its next id exceeds all ids queued then or since. |
| PlaybackEngine.Engine.DetachedIsApart | backend/main.py:884-918 | While the object plays a detached track, no row has its id and its end or failure removes none. |
| PlaybackEngine.Engine.ClearedTrackHandsOver | backend/main.py:884-918 | The track a past clear of the object left playing is still the detached one, and its end starts the lowest row. |
| PlaybackEngine.Engine.EnqueueItem | backend/main.py:4865-4875 | Adds a row whose id exceeds those of all queued rows. |
| PlaybackEngine.Engine.DeleteItem | backend/main.py:4879-4895 | Deletes a row and its place in the shuffled order. |
| PlaybackEngine.Engine.PlayItem | backend/main.py:4898-4902 | Starts a play request for a row that exists. |
| PlaybackEngine.Engine.ContinueAutoPlay | backend/main.py:2592-2593 | The automatic advance a route makes after the voice call it awaited: in id order it starts the lowest row above the given one, wrapping with repeat all only. |
| PlaybackEngine.Engine.SetRepeatMode | backend/main.py:2765-2775 | Sets the repeat mode. |
| PlaybackEngine.Engine.AnnouncePlayNow | backend/main.py:3482-3489 | A Netease or QQ play-now writes the record of its new row without a generation. |
| PlaybackEngine.Engine.RestoreCheckpoint | backend/main.py:410-462 | Takes over the playing row and the modes if the row is still there; the shuffled order starts as the queue. |
| PlaybackEngine.Engine.Insert | backend/models.py:84-91 | Inserts a row under SQLite's next id, or above the floor once ids are reserved. |
| PlaybackEngine.Engine.Delete | backend/main.py:858-881 | Removes the row and its place in the shuffled order, stepping the index back when the place was at or before it. |
| PlaybackEngine.Engine.SetNowPlaying | backend/main.py:373-405 | Sets or clears the now-playing record and ends any detachment. |
| PlaybackEngine.Engine.TakeNowPlayingIfMatch | backend/main.py:571-595 | Takes the record only for a matching source. |
| PlaybackEngine.Engine.BeginPlayRequest | backend/main.py:598-611 | Takes the next generation and sets the pending row. |
| PlaybackEngine.Engine.Finish | backend/main.py:619-627 | Ends a request and withdraws its pending mark. |
| PlaybackEngine.Engine.PlayQueueItem | backend/main.py:734-752 | Refuses an absent row, otherwise starts a request that waits as its source requires. |
| PlaybackEngine.Engine.EnqueueBilibiliNow | backend/main.py:3585-3628 | Starts a play-now request without a row. |
| PlaybackEngine.Engine.ResumeHydrated | backend/main.py:779-791 | Goes on to resolving only if still newest. |
| PlaybackEngine.Engine.ResumeResolved | backend/main.py:793-812 | Goes on only if still newest; a play-now request then inserts its row. |
| PlaybackEngine.Engine.ResumeAnnounce | backend/main.py:815-828 | Moves the shuffle index and writes the record if still newest. |
| PlaybackEngine.Engine.ResumeSound | backend/main.py:830-834 | Calls `voice.play` only if still newest, otherwise withdraws the record. |
| PlaybackEngine.Engine.ResumeReturned | backend/main.py:836-855 | Writes history only if `voice.play` succeeded and the request is still newest. |
| PlaybackEngine.Engine.ClearQueue | backend/main.py:884-918 | Empties the queue, reserves its ids and invalidates requests; without stop a queued playing track is then the detached one, with stop no record is left. |
| PlaybackEngine.Engine.SyncShuffle | backend/main.py:930-952 | Repairs the shuffled order with a permutation of the missing rows. |
| PlaybackEngine.Engine.AutoPlayNext | backend/main.py:925-1005 | Starts the next track in shuffled or id order, or none. |
| PlaybackEngine.Engine.SetShuffleEnabled | backend/main.py:2727-2753 | Shuffles all rows and finds the playing one, or forgets the order. |
| PlaybackEngine.Engine.VoiceNext | backend/main.py:2556-2593 | Drops the active row, invalidates requests and starts the next shuffled track or clears the record. |
| PlaybackEngine.Engine.VoiceSkip | backend/main.py:2597-2624 | Drops the active row, invalidates requests and clears the record. |
| PlaybackEngine.Engine.ChatStop | backend/main.py:3994-3999 | Invalidates requests and clears the record. |
| PlaybackEngine.Engine.VoicePrevious | backend/main.py:2628-2680 | Starts the track before the current one, wrapping with repeat all. |
| PlaybackEngine.Engine.HandlePlaybackFinished | backend/main.py:4259-4269 | Replays with repeat one, otherwise drops the finished row and advances; after a clear of a playing track it removes no row. |
| PlaybackEngine.Engine.HandlePlaybackError | backend/main.py:4318-4329 | Drops the failed row if its source matches; after a clear of a playing track it removes none. |
| PlaybackClock.PositionIsTargetPlusPlayedTime | backend/main.py:652-697 | In every run the position is the last seek target, or zero, plus the time since during which playback was not held. |
| PlaybackClock.ClampsAreIdle | backend/main.py:664-697 | Under a clock that never runs backwards, the clamps of resume and of the position never change a value. |
| PlaybackClock.FieldsFollow | backend/main.py:652-689 | The clock variables say whether a track is started, seekable and held, whatever calls are repeated. |
| PlaybackClock.PlaybackTime.SetNowPlaying | backend/main.py:373-405 | Starts or stops the clock. |
| PlaybackClock.PlaybackTime.Restore | backend/main.py:446-451 | A restart checkpoint sets the clock as starting, pausing and seeking at that instant would. |
| PlaybackClock.PlaybackTime.MarkPaused | backend/main.py:652-661 | Pauses once. |
| PlaybackClock.PlaybackTime.MarkResumed | backend/main.py:664-674 | Adds the paused stretch once. |
| PlaybackClock.PlaybackTime.MarkSeeked | backend/main.py:677-689 | Repositions, also while paused. |
| PlaybackClock.PlaybackTime.ResolvePosition | backend/main.py:692-697 | Returns the last target plus the played time. |
| WsFanout.ClientMissesOnlyOldPositions | backend/ws_manager.py:58-88 | For every connected client, delivered plus queued messages are a subsequence with every non-position message and the newest position; the queue is bounded with at most one position; a non-empty queue has `ready` set. |
| WsFanout.QueuedOrDropped | backend/ws_manager.py:58-69 | A message is queued last or the client is dropped, the latter exactly when irreplaceable messages fill the queue. |
| WsFanout.PositionsNeverOverflow | backend/ws_manager.py:62-67 | A client that only received positions is never dropped for another one. |
| WsFanout.BroadcastReachesEach | backend/ws_manager.py:94-97 | A broadcast affects each client exactly as a message to it alone. |
| WsFanout.StaleWriterIsHarmless | backend/ws_manager.py:80-88 | The end of an older writer leaves the newer connection of the same socket alone. |
| WsFanout.AcceptStartsEmpty | backend/ws_manager.py:29-37 | A new connection starts empty under an identity of its own and leaves other clients alone. |
| WsFanout.DisconnectEmpties | backend/ws_manager.py:39-44 | After a disconnect the client is gone and nothing is left to send to it. |
| WsFanout.GoneStaysGone | backend/ws_manager.py:39-88 | In every run a connection no longer registered never is again, receives nothing and at most drains what it had. |
| WsFanout.WriterEmptiesQueue | backend/ws_manager.py:71-79 | A writer left alone hands over everything in order and waits with `ready` cleared. |
| WsFanout.DroppingProgress | backend/ws_manager.py:62-64 | Removing queued positions before a newer one loses nothing else. |
| WsFanout.StepKeepsOk | backend/ws_manager.py:29-88 | Every step keeps the invariant of all connected clients. |
| WsFanout.WsManager.NothingButOldPositionsMissed | backend/ws_manager.py:58-88 | Between steps of the manager every connected client lacks only replaced positions, and its writer is awake while something is queued. |
| WsFanout.WsManager.SendTo | backend/ws_manager.py:90-92 | Queues an irreplaceable message for one client. |
| WsFanout.WsManager.DisconnectClient | backend/ws_manager.py:39-44 | Deregisters a client, which then receives nothing more. |
| WsFanout.WsManager.EnqueueForAll | backend/ws_manager.py:94-97 | The loop over a snapshot equals one simultaneous broadcast, in any order. |
| WsFanout.WsManager.FinishConnect | backend/ws_manager.py:33-37 | Registers a new connection object with its writer. |
| WsFanout.WsManager.DropConnection | backend/ws_manager.py:39-44 | Deregisters, empties and cancels. |
| WsFanout.WsManager.EnqueueItem | backend/ws_manager.py:58-69 | Replaces old positions, then queues or drops. |
| WsFanout.WsManager.BroadcastItem | backend/ws_manager.py:94-97 | A broadcast is one step of the run. |
| WsFanout.WsManager.WriterRuns | backend/ws_manager.py:73-79 | One turn of the writer between two awaits. |
| WsFanout.WsManager.WriterEnds | backend/ws_manager.py:80-88 | The exception and finally clauses. |
| PcmPipeline.FramesAreConserved | voice-service/src/main.rs:1602-1739 | At every step the frames encoded, in hand, buffered, queued and held by the reader are the frames read, in order, which begin ffmpeg's output; both queues respect their limits. |
| PcmPipeline.EndOfStreamEncodedEverything | voice-service/src/main.rs:1683-1730 | An uncancelled end-of-stream exit has encoded every frame read, and after a clean end every complete frame of the output. |
| PcmPipeline.UnderrunNeedsSilence | voice-service/src/main.rs:1732-1749 | Playback fails for sustained underrun only after 149 silent packets in a row. |
| PcmPipeline.BufferedFrameIsPlayed | voice-service/src/main.rs:1709-1714 | Over any run, once buffering has ended a tick with a buffered frame encodes exactly the head of the buffer. |
| PcmPipeline.EncodedIsNext | voice-service/src/main.rs:1706-1730 | Over any run, a frame encoded was next when its tick decided; silence means that the loop was still prebuffering, or that the buffer was empty and the late wait ran out on an empty channel. |
| PcmPipeline.UnderrunMeansStarved | voice-service/src/main.rs:1732-1749 | An underrun exit follows 150 ticks without data, with no real frame encoded since the first of them. |
| PcmPipeline.UnderrunIff | voice-service/src/main.rs:1732-1749 | A tick fails so exactly if it is silent, a frame has been seen and 149 packets before it were silent. |
| PcmPipeline.NoPcmIff | voice-service/src/main.rs:1685-1693 | Playback gives up waiting for a first frame exactly when the time is over, the stream has not ended and none was ever buffered. |
| PcmPipeline.BufferingEnds | voice-service/src/main.rs:1695-1697 | Buffering goes on exactly while there are fewer frames than the target and more may come, or there is none. |
| PcmPipeline.BufferingEndsOnce | voice-service/src/main.rs:1695-1697 | Once ended it never starts again. |
| PcmPipeline.TailIsNotHeldBack | voice-service/src/pcm_buffer.rs:19-21 | With the channel closed and frames left, buffering ends at once. |
| PcmPipeline.DrainKeepsOrder | voice-service/src/pcm_buffer.rs:7-17 | A drain moves a prefix of the channel, dropping malformed frames only, and stops only when full, empty or out of attempts. |
| PcmPipeline.Buffers.DrainBounded | voice-service/src/pcm_buffer.rs:7-17 | The loop computes that drain. |
| PcmPipeline.DrainStepsAreDrainBounded | voice-service/src/main.rs:1682 | The interleaved drain steps, uninterrupted, are one call of the drain. |
| PcmPipeline.StepKeepsOk | voice-service/src/main.rs:1654-1739 | Every step of reader and loop keeps the invariant. |
| PcmPipeline.NothingMalformed | voice-service/src/main.rs:1711-1722 | No size check of the loop ever drops a frame of the reader. |
| Reverb.ReverbChannel.Process | voice-service/src/main.rs:112-131 | Each wet sample is the output of the comb and all-pass recurrences over the whole stream, with every index in range. |
| Reverb.CombStep | voice-service/src/main.rs:115-121 | One comb reads b[n-L], writes b[n] and moves on. |
| Reverb.AllPassStep | voice-service/src/main.rs:124-130 | The all-pass stage outputs -s[n]+a[n-La] and writes a[n]. |
| Reverb.SimpleReverb.ProcessStereo | voice-service/src/main.rs:147-161 | The output leaves the dry sample towards 0.28 of the wet one in proportion to the mix; a negligible mix bypasses the filters without advancing them. |
| Reverb.CombTurns | voice-service/src/main.rs:115-121 | Rewriting the current slot keeps the buffer equal to the last turn of b. |
| Reverb.AllPassTurns | voice-service/src/main.rs:124-130 | The same for a. |
| Reverb.WetBounded | voice-service/src/main.rs:112-131 | Input within ±M keeps the wet signal within ±3M/0.22 for streams of any length. |
| Reverb.MixedOutputBounded | voice-service/src/main.rs:147-161 | The mixed output stays within M·((1−mix)+mix·0.84/0.22). |
| Reverb.MixLeans | voice-service/src/main.rs:152-159 | The output leaves the dry sample towards 0.28 of the wet one in proportion to the mix. |
| Reverb.WetIsLinear | voice-service/src/main.rs:112-131 | The reverb of a blend of two streams is the blend of their reverbs. |
| WebSocketFrames.TextReadBack | scripts/verify_deployment.py:321-347 | Any payloads written with any masks are read back as text frames, in order, whatever follows. |
| WebSocketFrames.FrameReadBack | scripts/verify_deployment.py:334-347 | Any frame with a minimal length field, masked or not, is read back with opcode and payload, and reading stops at its end. |
| WebSocketFrames.CompleteFrameIsStable | scripts/verify_deployment.py:334-347 | Later bytes never change a complete frame. |
| WebSocketFrames.SentDeterminesPayloads | scripts/verify_deployment.py:321-331 | The bytes sent determine the payloads, whatever the masks. |
| WebSocketFrames.LengthFieldConforms | scripts/verify_deployment.py:324-329 | The length field is the shortest, and its 64-bit form has a clear top bit exactly below 2^63. |
| WebSocketFrames.MaskedTwice | scripts/verify_deployment.py:345-346 | Masking is its own inverse. |
| WebSocketFrames.SentLayout | scripts/verify_deployment.py:321-331 | Where header, mask and combined bytes stand in a frame that was sent. |
| WebSocketFrames.XorIsBitwise | scripts/verify_deployment.py:330 | A bit of a combined byte is set exactly if it is set in one of the two. |
| WebSocketFrames.BigEndianDigits | scripts/verify_deployment.py:327-329 | Lengths are packed with the most significant byte first. |
| WebSocketFrames.UnpackPacked | scripts/verify_deployment.py:327-341 | Packed lengths unpack to themselves. |
| WebSocketFrames.BufferedSocket.ReadExact | scripts/verify_deployment.py:262-270 | Returns the next bytes of the stream however it is cut, or fails at its end having lost none. |
| WebSocketFrames.BufferedSocket.ReadFrame | scripts/verify_deployment.py:334-347 | Returns the next frame of the stream and leaves the rest. |
| WebSocketFrames.BufferedSocket.ReadFrames | scripts/verify_deployment.py:334-347 | Repeated calls return the frames of the stream in order, or fail when one is cut short. |
| WebSocketFrames.BufferedSocket.ReadTextFrames | scripts/verify_deployment.py:257-347 | However the network cuts the stream, reading as often as was sent returns the payloads sent, as text, in order. |
| WebSocketFrames.AwaitPong | scripts/verify_deployment.py:386-401 | The acceptance loop judges the first eight frames. |
| WebSocketFrames.PongIsFound | scripts/verify_deployment.py:386-401 | A pong among the first frames is found if no close frame precedes it. |
| TokenProtocol.ExtractsBuiltToken | backend/auth_contracts.py:15-32 | Any header of comma-free names that lists the built name before another one with the prefix yields the token. |
| TokenProtocol.NothingToExtract | backend/auth_contracts.py:15-26 | Without such a name, or without a header, nothing is extracted. |
| TokenProtocol.EncodedReadBack | backend/auth_contracts.py:10-30 | Decoding with the recomputed padding gives back the encoded bytes. |
| TokenProtocol.PaddingFromLength | backend/auth_contracts.py:29 | The re-added padding is exactly what was stripped. |
| TokenProtocol.EncodedChars | backend/auth_contracts.py:10-12 | The encoding uses letters, digits, hyphen and underscore only. |
| TokenProtocol.Base64ReadBack | backend/auth_contracts.py:30 | The lenient decoder inverts the encoder of section 4 of RFC 4648. |
| TokenProtocol.KnownEncodings | backend/auth_contracts.py:10-12 | Examples of section 10 of RFC 4648 and the characters of its section 5. |
| TokenProtocol.KnownUtf8 | backend/auth_contracts.py:11 | One character of each UTF-8 length. |
| TokenProtocol.TextReadBack | backend/auth_contracts.py:11-30 | Strict UTF-8 decoding inverts encoding. |
| TokenProtocol.BuildIsInjective | backend/auth_contracts.py:10-12 | Different tokens have different names. |
| TokenProtocol.JsBuildsSameName | web/src/core/WebSocketAuth.js:5-17 | The browser builds the same name as the backend for the trimmed token. |
| TokenProtocol.BrowserToBackend | web/src/core/WebSocketAuth.js:5-17 | What the browser offers, the backend reads as the trimmed token. |
| TokenProtocol.ClientsAgreeIff | scripts/verify_deployment.py:91-97 | Browser and deployment check offer the same names exactly when the token, freed of the white space both languages trim, is empty or neither begins nor ends with U+FEFF, U+001C to U+001F or U+0085. |
| Text.TrimsAgreeIff | scripts/verify_deployment.py:92 | The two languages trim a text alike exactly under that condition. |
| TokenProtocol.TrimsDiffer | scripts/verify_deployment.py:92 | Two tokens on which they do not. |
| BeatMap.BuildBeatMap | web/src/core/OfflineBeatAnalyzer.js:80-342 | For every input the beats are strictly increasing with gaps of at least 0.72 steps; a grid exists exactly when some frame triggers, covers the track from a whole number of steps before the anchor, and its step lies in [0.32, 0.86]. |
| BeatMap.FindCandidates | web/src/core/OfflineBeatAnalyzer.js:127-168 | The candidates are peaks of triggering frames, strictly ordered although a replacement may lie before what it replaces, and no triggering frame is stronger than all of them. |
| BeatMap.FoundIffTriggered | web/src/core/OfflineBeatAnalyzer.js:170 | The list is non-empty exactly when some frame triggers. |
| BeatMap.AdmitMatches | web/src/core/OfflineBeatAnalyzer.js:156-161 | Pushing, replacing or dropping never loses the strongest candidate. |
| BeatMap.PeakNear | web/src/core/OfflineBeatAnalyzer.js:142-146 | Finds the strongest frame around the trigger. |
| BeatMap.AdmitKeepsList | web/src/core/OfflineBeatAnalyzer.js:156-161 | Pushing or replacing keeps neighbours apart. |
| BeatMap.NearestCandidate | web/src/core/OfflineBeatAnalyzer.js:250-260 | Entering at the cursor finds a candidate of the window that is never farther away at the same power nor weaker at the same distance than another, is stronger if farther, and has at least 0.58 of any other's power. |
| BeatMap.PlaceBeat | web/src/core/OfflineBeatAnalyzer.js:263-307 | A beat stays on its grid position if no candidate is near, else goes 0.24 to 0.70 of the way to a preferred one; it lies within 0.14 steps of the grid and the cursor skips nothing. |
| BeatMap.NearestIsPreferred | web/src/core/OfflineBeatAnalyzer.js:250-260 | The best-scoring candidate is preferred in that sense, whatever the numbers. |
| BeatMap.PullGrows | web/src/core/OfflineBeatAnalyzer.js:304-307 | A stronger kick pulls more, from 0.24 up to 0.70 of the way. |
| BeatMap.BeatLeans | web/src/core/OfflineBeatAnalyzer.js:304-307 | A pulled beat lies between its grid position and the candidate. |
| BeatMap.LayGrid | web/src/core/OfflineBeatAnalyzer.js:262-336 | One placed beat for every grid position before the end of the track, and no other. |
| BeatMap.FirstGridPosition | web/src/core/OfflineBeatAnalyzer.js:242-243 | Walks the anchor back in whole steps to the first position above 0.05. |
| BeatMap.GridGivesGaps | web/src/core/OfflineBeatAnalyzer.js:304-307 | Neighbouring beats near a grid are between 0.72 and 1.28 steps apart. |
| BeatEngine.Engine.Search | web/src/core/BeatEngine.js:139-148 | The binary search equals the scan for the last beat at or before the position. |
| BeatEngine.Engine.GetSectionEnergyAt | web/src/core/BeatEngine.js:136-150 | Returns the clamped energy of that beat, or zero. |
| BeatEngine.Engine.GetAnalyzedBeatAt | web/src/core/BeatEngine.js:157-176 | Picks that beat, its age, and as interval the time to the next beat or the default one, at least 0.24 s. |
| BeatEngine.Engine.GetBeatAtWithGrid | web/src/core/BeatEngine.js:243-271 | Advances the cursor and emits a beat once. |
| BeatEngine.Engine.LoadBeatGrid | web/src/core/BeatEngine.js:122-127 | Loads a grid and resets the cursor; an empty one is ignored. |
| BeatEngine.CursorIsScan | web/src/core/BeatEngine.js:244-247 | Between loads and resets the cursor equals the scan for the furthest position so far. |
| BeatEngine.ForwardQueriesAgreeWithScan | web/src/core/BeatEngine.js:244-247 | For positions that do not decrease it equals the scan for the current one. |
| BeatEngine.EmittedOnceInOrder | web/src/core/BeatEngine.js:248-268 | Emitted indices strictly increase, whatever positions are asked for. |
| BeatEngine.LatestEmissionIsCurrent | web/src/core/BeatEngine.js:248-268 | The latest emission is the beat the scan finds. |
| BeatEngine.BuiltGridsAreSorted | web/src/core/OfflineBeatAnalyzer.js:337-342 | Every grid the analyser builds may be searched. |
| TempoTracker.HitsAreApart | web/src/core/AudioAnalyzer.js:449-482 | In every run consecutive hits are at least 0.340 s apart. |
| TempoTracker.RunKeepsOk | web/src/core/AudioAnalyzer.js:493-525 | In every run the tempo gap is 0 or in [0.42, 0.88], the confidence in [0, 1] and the recorded gaps in range and at most 24. |
| TempoTracker.AudioAnalyzer.AlwaysInRange | web/src/core/AudioAnalyzer.js:449-525 | Between frames the fields of the object are in range and its hits at least 0.340 s apart. |
| TempoTracker.FoldedInRange | web/src/core/AudioAnalyzer.js:506-508 | The folding loops end in [0.42, 0.88] for every positive gap. |
| TempoTracker.FoldedByOctaves | web/src/core/AudioAnalyzer.js:506-507 | Folding shifts the gap by whole octaves and only one loop runs. |
| TempoTracker.SteadyBeatConverges | web/src/core/AudioAnalyzer.js:493-525 | On a steady beat the tempo converges: n hits leave at most 0.9 to the n-th of its distance from the period. |
| TempoTracker.HitApproaches | web/src/core/AudioAnalyzer.js:508-518 | A hit one period after the last moves the tempo 10 percent of the way to it when locked, 22 percent otherwise. |
| TempoTracker.NoHitWhileWarming | web/src/core/AudioAnalyzer.js:444-448 | In every run no hit is accepted before the warm-up is over, nor among the first 17 frames. |
| TempoTracker.HitEvidence | web/src/core/AudioAnalyzer.js:416-482 | A hit needs a drum, and the more of it the less the tempo speaks for it. |
| TempoTracker.ClearBeatIsHit | web/src/core/AudioAnalyzer.js:416-482 | After the warm-up a loud, clear drum is a hit after any pause longer than one and a half of the slowest beats. |
| TempoTracker.HitRaises | web/src/core/AudioAnalyzer.js:515-520 | A hit that follows another raises what is left of the confidence by at least 0.04, up to 1. |
| TempoTracker.AudioAnalyzer.FoldGap | web/src/core/AudioAnalyzer.js:506-507 | Both loops terminate with that value. |
| TempoTracker.AudioAnalyzer.IsHit | web/src/core/AudioAnalyzer.js:441-482 | Candidate, rhythm gate and minimum gap decide the hit. |
| TempoTracker.AudioAnalyzer.OnFrame | web/src/core/AudioAnalyzer.js:413-525 | Updates tempo, confidence and last hit for one frame. |
| LyricAlignment.AlignNativeTranslations | backend/lyric_translation.py:22-52 | The loop computes the greedy matching and shows its cleaned texts. |
| LyricAlignment.MatchesAreDistinctAndClose | backend/lyric_translation.py:31-47 | Each translation is used at most once, and only within the tolerance of its line. |
| LyricAlignment.ToleranceRange | backend/lyric_translation.py:35-38 | The tolerance lies in [0.55, 1.5]. |
| LyricAlignment.ToleranceIs | backend/lyric_translation.py:35-38 | The tolerance is 35 percent of the narrower neighbouring gap, never below 0.55 s nor above 1.5 s. |
| LyricAlignment.CleanIs | backend/lyric_translation.py:12-19 | A translation is trimmed; it is dropped exactly if it is only white space and slashes, or a copyright notice. |
| LyricAlignment.ShownIs | backend/lyric_translation.py:46-50 | A matched translation is shown exactly if something of it is left that the line does not say itself. |
| LyricAlignment.GreedyIsIndependent | backend/lyric_translation.py:31-47 | With all gaps above 1.1 s every line gets what it would take alone. |
| LyricAlignment.MatchingKeepsOrder | backend/lyric_translation.py:31-47 | With all gaps above 1.1 s, later lines get later translations, whatever the iteration order. |
| LyricAlignment.OrderKeptIff | backend/lyric_translation.py:31-47 | Lines in time order keep all sorted translations in order, simultaneous ones being tried in theirs, exactly when all their gaps are at least 0.55 s. |
| LyricAlignment.WideGapsKeepOrder | backend/lyric_translation.py:31-47 | With gaps of at least 0.55 s, later lines get later translations. |
| LyricAlignment.OrderKeptForAnyTiesIff | backend/lyric_translation.py:40-43 | They do so for every iteration order of simultaneous translations exactly when all gaps exceed 1.1 s. |
| LyricAlignment.IndependentIff | backend/lyric_translation.py:31-47 | Every line gets what it would take alone, for all translations, exactly when all gaps exceed 1.1 s. |
| LyricAlignment.CloseLinesCanCross | backend/lyric_translation.py:35-43 | For every list of lines whose first gap below 0.55 s is at line i there are translations at distinct times for which lines i and i+1 cross, however they are iterated. |
| LyricAlignment.SimultaneousCanCross | backend/lyric_translation.py:40-43 | Two simultaneous translations cross between lines at most 1.1 s apart when the second is tried first. |
| LyricAlignment.WindowsApart | backend/lyric_translation.py:35-38 | With such gaps the tolerance windows of two lines do not meet. |
| LyricAlignment.NearestIsLeast | backend/lyric_translation.py:40-43 | The chosen candidate is a nearest one. |
| PlaylistCache.PlaylistDetailCache.Get | web/src/core/QQMusicData.js:94-99 | Returns only the latest stored, unexpired value, and misses such a value only after at least `max` other ids were stored or hit. |
| PlaylistCache.PlaylistDetailCache.Set | web/src/core/QQMusicData.js:100-103 | Stores the entry as the newest and leaves at most `max`. |
| PlaylistCache.SetKeepsOk | web/src/core/QQMusicData.js:100-103 | Storing keeps the map ordered by recency, up to date and complete but for excused entries. |
| PlaylistCache.GetKeepsOk | web/src/core/QQMusicData.js:94-99 | Reading keeps the same. |
| PlaylistCache.EvictedIsOvertaken | web/src/core/QQMusicData.js:102 | An evicted entry was overtaken by `max` other ids. |
| CachePrune.Prune | backend/bilibili_cache.py:23-85 | The loops delete what both passes select, and the reported counts and bytes equal it. |
| CachePrune.OldestFilesGoFirst | backend/bilibili_cache.py:70-83 | The size pass deletes the shortest sufficient prefix, by age and name, of the unprotected deletable retained files. |
| CachePrune.DeletedAreOlder | backend/bilibili_cache.py:70-83 | No file the size pass spares although it could delete it is older, or as old and named before, than one it deletes. |
| CachePrune.StaleIff | backend/bilibili_cache.py:40-66 | The first pass deletes a file exactly if it is deletable and its age has reached its positive time to live, that of partial files if it ends in `.part`. |
| CachePrune.SizePassIsShortestPrefix | backend/bilibili_cache.py:72-83 | The same for the loop over any sorted list. |
| CachePrune.SizePassSpares | backend/bilibili_cache.py:55-83 | The size pass deletes no protected, partial or expired file. |
| CachePrune.ProtectedFilesCanExpire | backend/bilibili_cache.py:55-66 | A protected file goes exactly when it is expired and deletable. |
| CachePrune.ProtectedFileExpires | backend/bilibili_cache.py:55-66 | A protected file past its time to live that is deleted. |
| CachePrune.FitsOrNothingLeft | backend/bilibili_cache.py:70-83 | Afterwards the retained files fit or nothing deletable is left. |
| CachePrune.SurvivorsFit | backend/bilibili_cache.py:70-83 | Deleted and surviving files are the retained ones, and the survivors fit or none of them could be deleted. |
| CachePrune.SortFacts | backend/bilibili_cache.py:72 | Sorting by time and name permutes the files and orders them. |
| AudioCapture.NoStreamLeaks | web/src/core/LocalAudioCapture.js:56-155 | In every interleaving a live stream is the captured one, or its start has not run since the browser handed it out; an active capture is live and has the analyser on it. |
| AudioCapture.SupersededIsSilent | web/src/core/LocalAudioCapture.js:89-127 | A superseded start changes neither status, stream nor analyser and stops its stream. |
| AudioCapture.SupersededForever | web/src/core/LocalAudioCapture.js:69-145 | Once superseded, a start stays superseded. |
| AudioCapture.SuccessCaptures | web/src/core/LocalAudioCapture.js:56-142 | In every interleaving a start that succeeds at every await and is not superseded ends active, with the stream chosen for it captured, live, connected and watched. |
| AudioCapture.ActiveOnlyWhenRunning | web/src/core/LocalAudioCapture.js:128-141 | A capture becomes active only when the analyser reports running to the current start, with the stream it holds. |
| AudioCapture.NotRunningReleases | web/src/core/LocalAudioCapture.js:116-131 | An analyser that does not run or throws ends the current start idle, with its stream stopped. |
| AudioCapture.FailureReleases | web/src/core/LocalAudioCapture.js:89-131 | However the current start fails, the capture is released and its stream stopped. |
| AudioCapture.FailureEndsStart | web/src/core/LocalAudioCapture.js:74-131 | A failing await ends its start, and a superseded start ends at its next continuation but for receiving a stream already asked for; no stream is gained. |
| AudioCapture.StopReleases | web/src/core/LocalAudioCapture.js:135-155 | Stopping, or the end of the captured stream, releases the capture; the end of another stream does not. |
| AudioCapture.LocalAudioCapture.NothingLeaked | web/src/core/LocalAudioCapture.js:56-155 | The same holds of the object between its steps. |
| AudioCapture.LocalAudioCapture.SupersededStreamIsStopped | web/src/core/LocalAudioCapture.js:117-127 | The stream of a start superseded while the analyser resumes is stopped already. |
| AudioCapture.StepKeepsOk | web/src/core/LocalAudioCapture.js:56-161 | Every step keeps the invariant. |
| AudioCapture.LocalAudioCapture.StartCapture | web/src/core/LocalAudioCapture.js:56-71 | Refuses while active, requesting or unsupported, otherwise takes a generation. |
| AudioCapture.LocalAudioCapture.AfterPrepare | web/src/core/LocalAudioCapture.js:74-75 | Goes on to the chooser only if current. |
| AudioCapture.LocalAudioCapture.AfterChoice | web/src/core/LocalAudioCapture.js:76-93 | Receives the chosen stream or gives up. |
| AudioCapture.LocalAudioCapture.ConnectChosen | web/src/core/LocalAudioCapture.js:95-116 | Connects a current stream with audio, otherwise stops it. |
| AudioCapture.LocalAudioCapture.AfterResume | web/src/core/LocalAudioCapture.js:117-141 | A running analyser makes the current start active with its stream; any other outcome releases the capture with that stream stopped; a superseded start changes nothing. |
| AudioCapture.LocalAudioCapture.StopCapture | web/src/core/LocalAudioCapture.js:144-155 | Supersedes every start, stops the stream and disconnects. |
| AudioCapture.LocalAudioCapture.TrackEnded | web/src/core/LocalAudioCapture.js:135-139 | Stops the capture only if its own stream ended. |

## Left out

- HTTP and gRPC routes, provider clients, SQLAlchemy, ffmpeg, Opus, TeamSpeak, IndexedDB and the browser media APIs: foreign calls, present only as the answers steps receive.
- PlaybackGenerations.NoStaleAudio: silent on the `voice.play` calls and history rows of Netease and QQ play-now enqueues, which take no generation; their rows and now-playing records are steps of the model.
- The status, title and description bookkeeping of the now-playing record (artist, album, artwork, duration): it influences no decision of the queue.
- Reading the restart checkpoint and deciding whether it is still current: only what it then sets is modelled.
- A playing row deleted individually before a clear is not detached by that clear, so id freshness does not extend to it.
- PlaybackIds.NewIdsExceedOldOnes: needs the clear to have found rows, because a clear of an empty table reserves nothing.
- PlaybackDrain.DrainInOrder: like all drains, for successful look-ups and no other commands; a failed look-up just leaves playback stopped.
- Thread-pool interleaving of the synchronous delete route with the event loop: each route is one step.
- Playback commands of the voice service that overlap; they are treated as serial.
- Pausing inside the send loop: it moves no frame.
- PcmPipeline.EndOfStreamEncodedEverything: silent on a loop that ends because its pause channel was dropped, which the service does only while stopping it.
- Volume, fade-in, bass, width, pan and clipping statistics of the send loop: sample-wise arithmetic with no state shared across frames except the bass filter.
- Reverb.ReverbChannel.Process: in real arithmetic, so rounding of 32-bit floats is not covered; the loop over the two combs is written as two calls.
- Unpaired surrogates in tokens, which UTF-8 encoding rejects in Python and replaces in the browser.
- BeatEngine.Engine.GetBeatAtWithGrid: the branch for realtime beats and the uniform fallback grid are not modelled, nor the BPM change that forgets the last emitted index.
- The onset, tempo and phase estimates of the offline analyser: arbitrary inputs of the grid, whose order does not depend on them.
- The remaining fields of beats and visual frames: clamped blends of the inputs.
- LyricAlignment.OrderKeptIff: like the other exact conditions on lyrics, for lines in time order, as lyric files list them.
- CachePrune.Prune: the size of a file is taken to be the same when it is listed and when it is deleted.
- Bus listeners of the audio capture that call back synchronously.
- Closing sockets after a client is dropped, and the shutdown of the manager: they only add cancelled writers.
