/**
 Only the newest play request may start audio.  Every command that plays, skips, stops or clears takes
 a generation; the log records when, and which requests called `voice.play` or wrote history.

 The proof looks at three fields only.  Each step of the player is at most three of the moves below,
 and every legal move keeps the invariant.
 */
module PlaybackGenerations {
  import opened Collections
  import opened Playback

  datatype Requests = Requests(log: seq<Event>, generation: nat, flight: map<nat, Request>)

  function Of(s: State): Requests {
    Requests(s.log, s.generation, s.flight)
  }

  datatype Move =
    | Idle
    | Take                            // a newer command
    | Open(req: Request)              // a request starts at the generation just taken
    | Change(gen: nat, req: Request)  // it goes on waiting
    | Close(gen: nat)                 // it ends
    | Start(enqueue: bool, item: Id, url: Url)  // the newest calls voice.play
    | Write(item: Id)                 // the newest writes history and ends

  function Apply(r: Requests, m: Move): Requests {
    match m
    case Idle => r
    case Take => r.(generation := r.generation + 1, log := r.log + [Took(r.generation + 1)])
    case Open(req) => r.(flight := r.flight[r.generation := req])
    case Change(gen, req) => r.(flight := r.flight[gen := req])
    case Close(gen) => r.(flight := r.flight - {gen})
    case Start(enqueue, item, url) =>
      r.(flight := r.flight[r.generation := Request(Some(item), enqueue, Sounding(url))],
         log := r.log + [Play(r.generation, item, url)])
    case Write(item) =>
      r.(flight := r.flight - {r.generation}, log := r.log + [History(r.generation, item)])
  }

  predicate Waits(r: Requests, gen: nat) {
    gen in r.flight && !r.flight[gen].stage.Sounding?
  }

  predicate Legal(r: Requests, m: Move) {
    match m
    case Idle => true
    case Take => true
    case Open(req) => !req.stage.Sounding? && r.log != [] && r.log[|r.log| - 1] == Took(r.generation)
    case Change(gen, req) => Waits(r, gen) && !req.stage.Sounding?
    case Close(gen) => gen in r.flight
    case Start(_, _, _) => Waits(r, r.generation)
    case Write(item) =>
      r.generation in r.flight && r.flight[r.generation].stage.Sounding? && r.flight[r.generation].item == Some(item)
  }

  ghost predicate IsTrace(states: seq<Requests>, r: Requests, moves: seq<Move>, t: Requests) {
    && |states| == |moves| + 1 && states[0] == r && states[|moves|] == t
    && forall i :: 0 <= i < |moves| ==> Legal(states[i], moves[i]) && states[i + 1] == Apply(states[i], moves[i])
  }

  /** `moves`, each legal where it happens, lead from `r` to `t`. */
  ghost predicate Leads(r: Requests, moves: seq<Move>, t: Requests) {
    exists states :: IsTrace(states, r, moves, t)
  }

  lemma NoMove(r: Requests)
    ensures Leads(r, [], r)
  {
    assert IsTrace([r], r, [], r);
  }

  lemma OneMove(r: Requests, m: Move)
    requires Legal(r, m)
    ensures Leads(r, [m], Apply(r, m))
  {
    hide Legal, Apply;
    assert IsTrace([r, Apply(r, m)], r, [m], Apply(r, m));
  }

  lemma ThenMoves(r: Requests, first: seq<Move>, mid: Requests, second: seq<Move>, t: Requests)
    requires Leads(r, first, mid) && Leads(mid, second, t)
    ensures Leads(r, first + second, t)
  {
    hide Legal, Apply;
    var a :| IsTrace(a, r, first, mid);
    var b :| IsTrace(b, mid, second, t);
    var states := a + b[1..];
    var moves := first + second;
    forall i | 0 <= i < |moves| ensures Legal(states[i], moves[i]) && states[i + 1] == Apply(states[i], moves[i]) {
      if i >= |first| {
        var k := i - |first|;
        assert moves[i] == second[k] && states[i] == b[k] && states[i + 1] == b[k + 1];
      }
    }
    assert IsTrace(states, r, moves, t);
  }

  lemma TwoMoves(r: Requests, m: Move, n: Move)
    requires Legal(r, m) && Legal(Apply(r, m), n)
    ensures Leads(r, [m, n], Apply(Apply(r, m), n))
  {
    hide Legal, Apply, Leads;
    OneMove(r, m);
    OneMove(Apply(r, m), n);
    ThenMoves(r, [m], Apply(r, m), [n], Apply(Apply(r, m), n));
    assert [m] + [n] == [m, n];
  }

  // ---------------------------------------------------------------- every step is a few moves

  lemma BeginMoves(s: State, id: Id) returns (moves: seq<Move>)
    ensures Leads(Of(s), moves, Of(Begin(s, id))) && |moves| <= 2
  {
    if id !in s.media {
      moves := [];
      NoMove(Of(s));
    } else {
      hide Leads;
      var open := Open(Begin(s, id).flight[s.generation + 1]);
      moves := [Take, open];
      TwoMoves(Of(s), Take, open);
    }
  }

  lemma AutoPlayMoves(s: State, startAfter: Option<Id>, shuffled: seq<Id>) returns (moves: seq<Move>)
    ensures Leads(Of(s), moves, Of(AutoPlay(s, startAfter, shuffled))) && |moves| <= 2
  {
    hide Begin, Leads;
    moves := [];
    NoMove(Of(s));
    if s.shuffleOn {
      var s1 := Sync(s, shuffled);
      if NextIndex(s1).Some? {
        moves := BeginMoves(s1.(index := NextIndex(s1).value), s1.shuffle[NextIndex(s1).value]);
      }
    } else if NextInOrder(s, startAfter).Some? {
      moves := BeginMoves(s, NextInOrder(s, startAfter).value);
    }
  }

  lemma PreviousMoves(s: State) returns (moves: seq<Move>)
    ensures Leads(Of(s), moves, Of(Previous(s))) && |moves| <= 2
  {
    hide Begin, Leads;
    moves := [];
    NoMove(Of(s));
    if s.shuffleOn && s.shuffle != [] {
      if 0 <= s.index - 1 < |s.shuffle| {
        moves := BeginMoves(s.(index := s.index - 1), s.shuffle[s.index - 1]);
      } else if s.index - 1 < 0 && s.repeatMode == RepeatAll {
        moves := BeginMoves(s.(index := |s.shuffle| - 1), s.shuffle[|s.shuffle| - 1]);
      }
    } else if ActiveItem(s).Some? {
      var below := LastBelow(s.queue, ActiveItem(s).value);
      if below.Some? {
        moves := BeginMoves(s, below.value);
      } else if s.repeatMode == RepeatAll && s.queue != [] {
        moves := BeginMoves(s, s.queue[|s.queue| - 1]);
      }
    }
  }

  lemma FinishedMoves(s: State, src: Url, shuffled: seq<Id>) returns (moves: seq<Move>)
    ensures Leads(Of(s), moves, Of(Finished(s, src, shuffled))) && |moves| <= 2
  {
    hide Begin, AutoPlay, Leads;
    moves := [];
    NoMove(Of(s));
    if Matches(s, src) {
      if s.repeatMode == RepeatOne && s.detached.None? {
        moves := BeginMoves(ClearNowPlaying(s), s.current.value);
      } else {
        moves := AutoPlayMoves(AfterFinish(s), None, shuffled);
      }
    }
  }

  lemma DropMoves(s: State)
    ensures Of(DropActive(s)) == Of(s)
    ensures Of(TakeGeneration(DropActive(s), None)) == Apply(Of(s), Take)
  {
  }

  /** `voice_next` in shuffle mode takes two generations: one to invalidate, one to play. */
  lemma NextMoves(s: State) returns (moves: seq<Move>)
    ensures Leads(Of(s), moves, Of(Next(s))) && |moves| <= 3
  {
    hide Begin, Leads, DropActive;
    moves := [Take];
    OneMove(Of(s), Take);
    DropMoves(s);
    var s1 := TakeGeneration(DropActive(s), None);
    if s1.shuffleOn && s1.shuffle != [] && NextIndex(s1).Some? {
      var next := NextIndex(s1).value;
      var later := BeginMoves(s1.(index := next), s1.shuffle[next]);
      ThenMoves(Of(s), [Take], Of(s1), later, Of(Next(s)));
      moves := [Take] + later;
    }
  }

  lemma HydratedMoves(s: State, gen: nat, ok: bool) returns (m: Move)
    ensures Leads(Of(s), [m], Of(Hydrated(s, gen, ok)))
  {
    m := if gen !in s.flight || s.flight[gen].stage != Hydrating then Idle
         else if !ok || !IsNewest(s, gen) then Close(gen)
         else Change(gen, s.flight[gen].(stage := Resolving));
    OneMove(Of(s), m);
  }

  lemma ResolvedMoves(s: State, gen: nat, answer: Option<Url>) returns (m: Move)
    ensures Leads(Of(s), [m], Of(ResolvedTo(s, gen, answer)))
  {
    m := if gen !in s.flight || s.flight[gen].stage != Resolving then Idle
         else if answer.None? || !IsNewest(s, gen) then Close(gen)
         else if s.flight[gen].enqueue then Change(gen, Request(Some(NextId(s)), true, Resolved(answer.value)))
         else Change(gen, s.flight[gen].(stage := Resolved(answer.value)));
    OneMove(Of(s), m);
  }

  lemma AnnounceMoves(s: State, gen: nat) returns (m: Move)
    ensures Leads(Of(s), [m], Of(Announce(s, gen)))
  {
    m := if gen !in s.flight || !s.flight[gen].stage.Resolved? || s.flight[gen].item.None? then Idle
         else if !s.flight[gen].enqueue && !IsNewest(s, gen) then Close(gen)
         else Change(gen, s.flight[gen].(stage := Announced(s.flight[gen].stage.url)));
    OneMove(Of(s), m);
  }

  lemma SoundMoves(s: State, gen: nat) returns (m: Move)
    ensures Leads(Of(s), [m], Of(Sound(s, gen)))
  {
    m := if gen !in s.flight || !s.flight[gen].stage.Announced? || s.flight[gen].item.None? then Idle
         else if !IsNewest(s, gen) then Close(gen)
         else Start(s.flight[gen].enqueue, s.flight[gen].item.value, s.flight[gen].stage.url);
    OneMove(Of(s), m);
  }

  lemma ReturnedMoves(s: State, gen: nat, ok: bool) returns (m: Move)
    ensures Leads(Of(s), [m], Of(Returned(s, gen, ok)))
  {
    m := if gen !in s.flight || !s.flight[gen].stage.Sounding? || s.flight[gen].item.None? then Idle
         else if !ok || !IsNewest(s, gen) then Close(gen)
         else Write(s.flight[gen].item.value);
    OneMove(Of(s), m);
  }

  /** Steps that concern the rows, the record and the shuffled order only. */
  lemma QuietMoves(s: State, a: Action)
    requires a.DoInsert? || a.DoDelete? || a.DoShuffle? || a.DoRepeat? || a.DoFailed? || a.DoAnnounceNow? || a.DoRestore?
    ensures Of(Step(s, a)) == Of(s)
  {
  }

  /** Commands that only invalidate. */
  lemma InvalidatingMoves(s: State, a: Action)
    requires a.DoClear? || a.DoStop? || a.DoSkip?
    ensures Of(Step(s, a)) == Apply(Of(s), Take)
  {
    hide DropActive;
    DropMoves(s);
  }

  lemma BeginEnqueueMoves(s: State) returns (moves: seq<Move>)
    ensures Leads(Of(s), moves, Of(BeginEnqueue(s))) && |moves| <= 2
  {
    moves := [Take, Open(Request(None, true, Hydrating))];
    TwoMoves(Of(s), Take, Open(Request(None, true, Hydrating)));
  }

  predicate Resumes(a: Action) {
    a.DoHydrated? || a.DoResolved? || a.DoAnnounce? || a.DoSound? || a.DoReturned?
  }

  lemma ResumeMoves(s: State, a: Action) returns (m: Move)
    requires Resumes(a)
    ensures Leads(Of(s), [m], Of(Step(s, a)))
  {
    hide Leads, Hydrated, ResolvedTo, Announce, Sound, Returned;
    match a
    case DoHydrated(gen, ok) => m := HydratedMoves(s, gen, ok);
    case DoResolved(gen, answer) => m := ResolvedMoves(s, gen, answer);
    case DoAnnounce(gen) => m := AnnounceMoves(s, gen);
    case DoSound(gen) => m := SoundMoves(s, gen);
    case DoReturned(gen, ok) => m := ReturnedMoves(s, gen, ok);
  }

  /** Every step of the player is a few legal moves of the request protocol. */
  lemma StepMoves(s: State, a: Action) returns (moves: seq<Move>)
    ensures Leads(Of(s), moves, Of(Step(s, a))) && |moves| <= 3
  {
    hide Begin, BeginEnqueue, AutoPlay, Next, Previous, Finished, Clear, Stop, Skip, Leads;
    if Resumes(a) {
      var m := ResumeMoves(s, a);
      return [m];
    }
    moves := [];
    match a
    case DoBegin(id) => moves := BeginMoves(s, id);
    case DoBeginEnqueue => moves := BeginEnqueueMoves(s);
    case DoAutoPlay(after, shuffled) => moves := AutoPlayMoves(s, after, shuffled);
    case DoNext => moves := NextMoves(s);
    case DoPrevious => moves := PreviousMoves(s);
    case DoFinished(src, shuffled) => moves := FinishedMoves(s, src, shuffled);
    case DoClear(_) => moves := [Take]; InvalidatingMoves(s, a); OneMove(Of(s), Take);
    case DoSkip => moves := [Take]; InvalidatingMoves(s, a); OneMove(Of(s), Take);
    case DoStop => moves := [Take]; InvalidatingMoves(s, a); OneMove(Of(s), Take);
    case _ => QuietMoves(s, a); NoMove(Of(s));
  }

  // ---------------------------------------------------------------- what the log may say

  /** The generation last taken in a log. */
  function Newest(log: seq<Event>): nat {
    if log == [] then 0
    else if log[|log| - 1].Took? then log[|log| - 1].gen
    else Newest(log[..|log| - 1])
  }

  ghost predicate NoPlay(log: seq<Event>, gen: nat) {
    forall e :: e in log && e.Play? ==> e.gen != gen
  }

  ghost predicate NoHistory(log: seq<Event>, gen: nat) {
    forall e :: e in log && e.History? ==> e.gen != gen
  }

  ghost predicate Played(log: seq<Event>, gen: nat, item: Id) {
    exists url :: Play(gen, item, url) in log
  }

  /** What may follow a log: audio and history only for its newest generation, once each. */
  ghost predicate Allowed(before: seq<Event>, e: Event) {
    match e
    case Took(gen) => gen == Newest(before) + 1
    case Play(gen, _, _) => gen == Newest(before) && NoPlay(before, gen)
    case History(gen, item) => gen == Newest(before) && Played(before, gen, item) && NoHistory(before, gen)
  }

  ghost predicate LogOk(log: seq<Event>) {
    log == [] || (LogOk(log[..|log| - 1]) && Allowed(log[..|log| - 1], log[|log| - 1]))
  }

  /** A request has called `voice.play` exactly when it is suspended there, and has no history row yet. */
  ghost predicate RequestOk(log: seq<Event>, gen: nat, r: Request) {
    && NoHistory(log, gen)
    && (if r.stage.Sounding? then r.item.Some? && Play(gen, r.item.value, r.stage.url) in log
        else NoPlay(log, gen))
  }

  ghost predicate FlightOk(r: Requests) {
    forall g :: g in r.flight ==> g <= r.generation && RequestOk(r.log, g, r.flight[g])
  }

  /** No logged generation exceeds the counter. */
  ghost predicate Bounded(r: Requests) {
    && Newest(r.log) == r.generation
    && forall e :: e in r.log ==> e.gen <= r.generation
  }

  ghost predicate Ok(r: Requests) {
    LogOk(r.log) && Bounded(r) && FlightOk(r)
  }

  lemma AppendKeepsLog(log: seq<Event>, e: Event)
    requires LogOk(log) && Allowed(log, e)
    ensures LogOk(log + [e])
    ensures Newest(log + [e]) == if e.Took? then e.gen else Newest(log)
  {
    assert (log + [e])[..|log|] == log;
  }

  lemma RequestGrows(log: seq<Event>, e: Event, gen: nat, r: Request)
    requires RequestOk(log, gen, r) && (e.Took? || e.gen != gen)
    ensures RequestOk(log + [e], gen, r)
  {
  }

  lemma TakeKeepsOk(r: Requests)
    requires Ok(r)
    ensures Ok(Apply(r, Take))
  {
    var e := Took(r.generation + 1);
    AppendKeepsLog(r.log, e);
    forall g | g in r.flight ensures RequestOk(r.log + [e], g, r.flight[g]) {
      RequestGrows(r.log, e, g, r.flight[g]);
    }
  }

  lemma OpenKeepsOk(r: Requests, req: Request)
    requires Ok(r) && Legal(r, Open(req))
    ensures Ok(Apply(r, Open(req)))
  {
    var before := r.log[..|r.log| - 1];
    assert r.log == before + [Took(r.generation)];
    BoundedBefore(before);
  }

  lemma {:induction false} BoundedBefore(log: seq<Event>)
    requires LogOk(log)
    ensures forall e :: e in log ==> e.gen <= Newest(log)
  {
    if log != [] {
      var before := log[..|log| - 1];
      BoundedBefore(before);
      assert log == before + [log[|log| - 1]];
    }
  }

  lemma StartKeepsOk(r: Requests, enqueue: bool, item: Id, url: Url)
    requires Ok(r) && Legal(r, Start(enqueue, item, url))
    ensures Ok(Apply(r, Start(enqueue, item, url)))
  {
    var e := Play(r.generation, item, url);
    AppendKeepsLog(r.log, e);
    forall g | g in r.flight && g != r.generation ensures RequestOk(r.log + [e], g, r.flight[g]) {
      RequestGrows(r.log, e, g, r.flight[g]);
    }
  }

  lemma WriteKeepsOk(r: Requests, item: Id)
    requires Ok(r) && Legal(r, Write(item))
    ensures Ok(Apply(r, Write(item)))
  {
    var e := History(r.generation, item);
    AppendKeepsLog(r.log, e);
    forall g | g in r.flight && g != r.generation ensures RequestOk(r.log + [e], g, r.flight[g]) {
      RequestGrows(r.log, e, g, r.flight[g]);
    }
  }

  lemma MoveKeepsOk(r: Requests, m: Move)
    requires Ok(r) && Legal(r, m)
    ensures Ok(Apply(r, m))
    ensures r.log <= Apply(r, m).log
  {
    match m
    case Idle =>
    case Take => TakeKeepsOk(r);
    case Open(req) => OpenKeepsOk(r, req);
    case Change(gen, req) =>
    case Close(gen) =>
    case Start(enqueue, item, url) => StartKeepsOk(r, enqueue, item, url);
    case Write(item) => WriteKeepsOk(r, item);
  }

  lemma {:induction false} TraceKeepsOk(states: seq<Requests>, r: Requests, moves: seq<Move>, t: Requests, i: nat)
    requires Ok(r) && IsTrace(states, r, moves, t) && i < |states|
    ensures Ok(states[i]) && r.log <= states[i].log
  {
    hide Ok, Legal, Apply;
    if i > 0 {
      TraceKeepsOk(states, r, moves, t, i - 1);
      MoveKeepsOk(states[i - 1], moves[i - 1]);
      assert states[i - 1 + 1] == Apply(states[i - 1], moves[i - 1]);
    }
  }

  lemma StepKeepsOk(s: State, a: Action)
    requires Ok(Of(s))
    ensures Ok(Of(Step(s, a)))
    ensures s.log <= Step(s, a).log
  {
    hide Ok, Step;
    var moves := StepMoves(s, a);
    var states :| IsTrace(states, Of(s), moves, Of(Step(s, a)));
    TraceKeepsOk(states, Of(s), moves, Of(Step(s, a)), |moves|);
  }

  lemma {:induction false} RunKeepsOk(run: seq<State>, acts: seq<Action>, i: nat)
    requires IsRun(run, acts) && i < |run|
    ensures forall k :: 0 <= k <= i ==> Ok(Of(run[k]))
  {
    if i > 0 {
      RunKeepsOk(run, acts, i - 1);
      StepKeepsOk(run[i - 1], acts[i - 1]);
    }
  }

  /** Logs that grow step by step have grown from any earlier point to any later one. */
  lemma {:induction false} GrowthComposes(logs: seq<seq<Event>>, i: nat, j: nat)
    requires i <= j < |logs|
    requires forall k :: 0 <= k < |logs| - 1 ==> logs[k] <= logs[k + 1]
    ensures logs[i] <= logs[j]
  {
    if i < j {
      GrowthComposes(logs, i, j - 1);
      assert logs[j - 1] <= logs[j - 1 + 1];
    }
  }

  lemma LogGrows(run: seq<State>, acts: seq<Action>, i: nat, j: nat)
    requires IsRun(run, acts) && i <= j < |run|
    ensures run[i].log <= run[j].log
  {
    var logs := seq(|run|, k requires 0 <= k < |run| => run[k].log);
    forall k | 0 <= k < |logs| - 1 ensures logs[k] <= logs[k + 1] {
      OneStepGrows(run, acts, k);
    }
    GrowthComposes(logs, i, j);
  }

  lemma OneStepGrows(run: seq<State>, acts: seq<Action>, i: nat)
    requires IsRun(run, acts) && i < |acts|
    ensures run[i].log <= run[i + 1].log
  {
    RunKeepsOk(run, acts, i);
    StepKeepsOk(run[i], acts[i]);
  }

  // ---------------------------------------------------------------- the theorems

  /** An entry of a good log was allowed by what came before it. */
  lemma {:induction false} EntryAllowed(log: seq<Event>, j: nat)
    requires LogOk(log) && j < |log|
    ensures LogOk(log[..j]) && Allowed(log[..j], log[j])
  {
    if j < |log| - 1 {
      EntryAllowed(log[..|log| - 1], j);
      assert log[..|log| - 1][..j] == log[..j];
    }
  }

  /** Within a good log, nothing older than a taken generation happens after it. */
  lemma NothingStale(log: seq<Event>, i: nat, j: nat)
    requires LogOk(log) && i < j < |log|
    ensures log[i].gen <= log[j].gen
    ensures log[j].Play? && log[i].Play? ==> log[i].gen < log[j].gen
    ensures log[j].History? && log[i].History? ==> log[i].gen < log[j].gen
  {
    EntryAllowed(log, j);
    BoundedBefore(log[..j]);
    assert log[..j][i] in log[..j];
  }

  /**
   A request that is in flight when a newer command takes a generation never calls `voice.play` and
   never writes history from then on, however the steps interleave: in the log as it stands at any
   later point of the run, everything after that moment belongs to the newer generations.
   */
  lemma NoStaleAudio(run: seq<State>, acts: seq<Action>, i: nat, j: nat, k: nat)
    requires IsRun(run, acts) && i <= j < |run|
    requires |run[i].log| <= k < |run[j].log|
    ensures run[i].generation <= run[j].log[k].gen
    ensures run[j].log[k].Play? ==> run[j].log[k].gen == Newest(run[j].log[..k])
  {
    LogGrows(run, acts, i, j);
    RunKeepsOk(run, acts, i);
    RunKeepsOk(run, acts, j);
    EntryAllowed(run[j].log, k);
    TakenSoFar(run[i].log, run[j].log[..k]);
  }

  lemma {:induction false} TakenSoFar(early: seq<Event>, late: seq<Event>)
    requires early <= late && LogOk(late)
    ensures Newest(early) <= Newest(late)
  {
    if early != late {
      TakenSoFar(early, late[..|late| - 1]);
    } else {
      assert early == late;
    }
  }

  /** Audio starts in the order the requests were made, each at most once; so do history rows. */
  lemma AudioInRequestOrder(run: seq<State>, acts: seq<Action>, n: nat, i: nat, j: nat)
    requires IsRun(run, acts) && n < |run| && i < j < |run[n].log|
    ensures run[n].log[i].Play? && run[n].log[j].Play? ==> run[n].log[i].gen < run[n].log[j].gen
    ensures run[n].log[i].History? && run[n].log[j].History? ==> run[n].log[i].gen < run[n].log[j].gen
  {
    RunKeepsOk(run, acts, n);
    NothingStale(run[n].log, i, j);
  }

  /** A history row names a track that was sent to the voice service, and nothing was requested in between. */
  lemma HistoryOfNewest(run: seq<State>, acts: seq<Action>, n: nat, j: nat) returns (i: nat)
    requires IsRun(run, acts) && n < |run| && j < |run[n].log| && run[n].log[j].History?
    ensures i < j && run[n].log[i].Play?
    ensures run[n].log[i].gen == run[n].log[j].gen && run[n].log[i].item == run[n].log[j].item
    ensures forall k :: i < k < j ==> !run[n].log[k].Took?
  {
    var log := run[n].log;
    RunKeepsOk(run, acts, n);
    EntryAllowed(log, j);
    var url :| Play(log[j].gen, log[j].item, url) in log[..j];
    i :| 0 <= i < j && log[..j][i] == Play(log[j].gen, log[j].item, url);
    forall k | i < k < j ensures !log[k].Took? {
      EntryAllowed(log, k);
      BoundedBefore(log[..k]);
      assert log[..k][i] in log[..k];
      NothingStale(log, k, j);
    }
  }

  /** The commands that outdate whatever is in flight. */
  predicate Outdates(s: State, a: Action) {
    match a
    case DoBegin(id) => id in s.media
    case DoBeginEnqueue => true
    case DoClear(_) => true
    case DoNext => true
    case DoSkip => true
    case DoStop => true
    case _ => false
  }

  lemma PlayOutdates(s: State, id: Id)
    ensures Begin(s, id).generation == if id in s.media then s.generation + 1 else s.generation
    ensures BeginEnqueue(s).generation > s.generation
  {
  }

  lemma NextOutdates(s: State)
    ensures Next(s).generation > s.generation
  {
    hide Begin, DropActive;
    DropMoves(s);
    var s1 := TakeGeneration(DropActive(s), None);
    if s1.shuffleOn && s1.shuffle != [] && NextIndex(s1).Some? {
      var next := NextIndex(s1).value;
      PlayOutdates(s1.(index := next), s1.shuffle[next]);
    }
  }

  lemma CommandsOutdate(s: State, a: Action)
    requires Outdates(s, a)
    ensures Step(s, a).generation > s.generation
  {
    hide Begin, BeginEnqueue, Clear, Next, Skip, Stop;
    match a
    case DoBegin(id) => PlayOutdates(s, id);
    case DoBeginEnqueue => PlayOutdates(s, 1);
    case DoNext => NextOutdates(s);
    case _ => InvalidatingMoves(s, a);
  }

  /**
   The promise of the generation counter: once a later play, next, skip, stop or clear has run, a
   request begun before it appears in no later log entry.
   */
  lemma SupersededStaysSilent(run: seq<State>, acts: seq<Action>, i: nat, gen: nat, j: nat, k: nat)
    requires IsRun(run, acts) && i < |acts| && i < j < |run|
    requires gen in run[i].flight && Outdates(run[i], acts[i])
    requires |run[i + 1].log| <= k < |run[j].log|
    ensures run[j].log[k].gen > gen
  {
    RunKeepsOk(run, acts, i);
    CommandsOutdate(run[i], acts[i]);
    NoStaleAudio(run, acts, i + 1, j, k);
  }
}
