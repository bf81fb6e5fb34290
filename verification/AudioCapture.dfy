/**
 The generation-guarded capture of system audio (`web/src/core/LocalAudioCapture.js`).  `start` awaits
 three times; `stop` and the browser's "ended" events may run at any of those points, and so may a
 later `start`.  Each stretch between awaits is one step.
 */
module AudioCapture {
  import opened Collections
  import opened Journals

  type StreamId = nat

  datatype Status = Idle | Requesting | Active

  /** Where a `start` is suspended: for the audio context, for the user's choice, with a chosen stream
      whose continuation has not run yet, or for the analyser to resume. */
  datatype Phase = Preparing | Choosing | Acquired(stream: StreamId) | Resuming(stream: StreamId)

  datatype Resume = Running | NotRunning | Throws

  datatype State = State(
    status: Status,
    stream: Option<StreamId>,     // this.stream
    generation: nat,
    analyzer: Option<StreamId>,   // the stream the analyser is connected to
    starts: map<nat, Phase>,      // suspended starts by their generation
    live: set<StreamId>,          // streams handed out by the browser and not stopped
    listening: set<StreamId>,     // streams with an "ended" listener that has not fired
    next: StreamId)

  const INITIAL := State(Idle, None, 0, None, map[], {}, {}, 0)

  // ---------------------------------------------------------------- steps

  predicate Current(s: State, gen: nat) {
    gen == s.generation
  }

  function Stop(s: State): State {
    s.(generation := s.generation + 1, stream := None, analyzer := None, status := Idle,
       live := if s.stream.Some? then s.live - {s.stream.value} else s.live)
  }

  /** `start` up to its first await; it refuses while active, requesting or unsupported. */
  function Start(s: State, supported: bool): State {
    if (s.status == Active && s.stream.Some?) || s.status == Requesting || !supported then s
    else s.(generation := s.generation + 1, status := Requesting, starts := s.starts[s.generation + 1 := Preparing])
  }

  /** A start is over; only the current one reports it. */
  function GiveUp(s: State, gen: nat): State {
    s.(starts := s.starts - {gen}, status := if Current(s, gen) then Idle else s.status)
  }

  function StopTracks(s: State, stream: StreamId): State {
    s.(live := s.live - {stream})
  }

  function Prepared(s: State, gen: nat, ok: bool): State {
    if gen !in s.starts || s.starts[gen] != Preparing then s
    else if !ok || !Current(s, gen) then GiveUp(s, gen)
    else s.(starts := s.starts[gen := Choosing])
  }

  /** The user chose a source, or refused. */
  function Chosen(s: State, gen: nat, ok: bool): State {
    if gen !in s.starts || s.starts[gen] != Choosing then s
    else if !ok then GiveUp(s, gen)
    else s.(starts := s.starts[gen := Acquired(s.next)], live := s.live + {s.next}, next := s.next + 1)
  }

  /** The continuation with the stream; connecting replaces whatever the analyser was connected to. */
  function Connect(s: State, gen: nat, hasAudio: bool, connects: bool): State {
    if gen !in s.starts || !s.starts[gen].Acquired? then s
    else
      var stream := s.starts[gen].stream;
      if !Current(s, gen) || !hasAudio then GiveUp(StopTracks(s, stream), gen)
      else if !connects then GiveUp(StopTracks(s, stream), gen).(analyzer := None)
      else s.(analyzer := Some(stream), stream := Some(stream), starts := s.starts[gen := Resuming(stream)])
  }

  function Resumed(s: State, gen: nat, outcome: Resume): State {
    if gen !in s.starts || !s.starts[gen].Resuming? then s
    else
      var stream := s.starts[gen].stream;
      var s1 := s.(starts := s.starts - {gen});
      if outcome == Throws then StopTracks(if Current(s, gen) then Stop(s1) else s1, stream)
      else if !Current(s, gen) then StopTracks(s1, stream)
      else if outcome == NotRunning then Stop(s1)
      else s1.(stream := Some(stream), status := Active, listening := s1.listening + {stream})
  }

  /** A listener fires once and stops the capture only if its stream is still the captured one. */
  function Ended(s: State, stream: StreamId): State {
    if stream !in s.listening then s
    else
      var s1 := s.(listening := s.listening - {stream});
      if s.stream == Some(stream) then Stop(s1) else s1
  }

  datatype Action =
    | DoStart(supported: bool) | DoPrepared(gen: nat, ok: bool) | DoChosen(gen: nat, ok: bool)
    | DoConnect(gen: nat, hasAudio: bool, connects: bool) | DoResumed(gen: nat, outcome: Resume)
    | DoStop | DoEnded(stream: StreamId)

  function Step(s: State, a: Action): State {
    match a
    case DoStart(supported) => Start(s, supported)
    case DoPrepared(gen, ok) => Prepared(s, gen, ok)
    case DoChosen(gen, ok) => Chosen(s, gen, ok)
    case DoConnect(gen, hasAudio, connects) => Connect(s, gen, hasAudio, connects)
    case DoResumed(gen, outcome) => Resumed(s, gen, outcome)
    case DoStop => Stop(s)
    case DoEnded(stream) => Ended(s, stream)
  }

  // ---------------------------------------------------------------- the invariant

  predicate Holds(p: Phase, stream: StreamId) {
    (p.Acquired? || p.Resuming?) && p.stream == stream
  }

  /** The status says whether the newest start is still suspended, and the analyser follows the stream. */
  ghost predicate StatusOk(s: State) {
    && (s.status == Requesting <==> s.generation in s.starts)
    && s.analyzer == s.stream
    && (s.status == Active ==> s.stream.Some? && s.stream.value in s.listening)
    && (s.stream.Some? && s.status != Active ==>
          s.generation in s.starts && s.starts[s.generation] == Resuming(s.stream.value))
    && (s.generation in s.starts ==>
          s.stream == if s.starts[s.generation].Resuming? then Some(s.starts[s.generation].stream) else None)
  }

  /**
   Streams have one owner.  What the captured and the suspended ones say about `live`: a start that was
   superseded while the analyser resumes holds a stream that is stopped already.
   */
  ghost predicate StreamsOk(s: State) {
    && (s.stream.Some? ==> s.stream.value in s.live)
    && (forall x :: x in s.live ==> x < s.next)
    && (forall g :: g in s.starts ==> g <= s.generation)
    && (forall g :: g in s.starts && s.starts[g].Acquired? ==> s.starts[g].stream in s.live)
    && (forall g :: g in s.starts && s.starts[g].Resuming? ==> s.starts[g].stream < s.next)
    && (forall g :: g in s.starts && s.starts[g].Resuming? && g != s.generation ==> s.starts[g].stream !in s.live)
    && (forall g :: g in s.starts && s.starts[g].Acquired? ==> s.stream != Some(s.starts[g].stream))
    && (forall g, h :: g in s.starts && h in s.starts && g != h && (s.starts[g].Acquired? || s.starts[g].Resuming?) ==>
          !Holds(s.starts[h], s.starts[g].stream))
  }

  /** No stream is lost: a live one is the captured one or in the hands of a suspended start. */
  ghost predicate NoneLost(s: State) {
    forall x :: x in s.live ==> s.stream == Some(x) || Held(s, x)
  }

  ghost predicate Held(s: State, x: StreamId) {
    exists g :: g in s.starts && Holds(s.starts[g], x)
  }

  ghost predicate Ok(s: State) {
    StatusOk(s) && StreamsOk(s) && NoneLost(s)
  }

  /** Steps that leave all starts but one alone lose no stream if they account for those two places. */
  lemma OthersStillHold(s: State, t: State, gen: nat)
    requires NoneLost(s)
    requires forall g :: g in s.starts && g != gen ==> g in t.starts && t.starts[g] == s.starts[g]
    requires forall x :: x in t.live ==>
      || t.stream == Some(x) || (gen in t.starts && Holds(t.starts[gen], x))
      || (x in s.live && s.stream != Some(x) && !(gen in s.starts && Holds(s.starts[gen], x)))
    ensures NoneLost(t)
  {
    forall x | x in t.live && t.stream != Some(x) ensures Held(t, x) {
      if gen in t.starts && Holds(t.starts[gen], x) {
        assert Held(t, x);
      } else {
        var g :| g in s.starts && Holds(s.starts[g], x);
        assert g in t.starts && Holds(t.starts[g], x);
      }
    }
  }

  lemma StopKeepsOk(s: State)
    requires Ok(s)
    ensures Ok(Stop(s))
  {
    hide Held;
    OthersStillHold(s, Stop(s), s.generation + 1);
  }

  lemma NewestStart(s: State)
    requires StreamsOk(s)
    ensures s.generation + 1 !in s.starts
  {
  }

  lemma StartKeepsStreams(s: State, supported: bool)
    requires StatusOk(s) && StreamsOk(s)
    ensures StreamsOk(Start(s, supported))
  {
  }

  lemma StartKeepsOk(s: State, supported: bool)
    requires Ok(s)
    ensures Ok(Start(s, supported))
  {
    hide Held, NoneLost, StreamsOk;
    StartKeepsStreams(s, supported);
    NewestStart(s);
    OthersStillHold(s, Start(s, supported), s.generation + 1);
  }

  lemma PreparedKeepsStreams(s: State, gen: nat, ok: bool)
    requires StatusOk(s) && StreamsOk(s)
    ensures StreamsOk(Prepared(s, gen, ok))
  {
  }

  lemma PreparedKeepsOk(s: State, gen: nat, ok: bool)
    requires Ok(s)
    ensures Ok(Prepared(s, gen, ok))
  {
    hide Held, NoneLost, StreamsOk;
    PreparedKeepsStreams(s, gen, ok);
    OthersStillHold(s, Prepared(s, gen, ok), gen);
  }

  lemma ChosenKeepsStreams(s: State, gen: nat, ok: bool)
    requires StatusOk(s) && StreamsOk(s)
    ensures StreamsOk(Chosen(s, gen, ok))
  {
  }

  lemma ChosenKeepsOk(s: State, gen: nat, ok: bool)
    requires Ok(s)
    ensures Ok(Chosen(s, gen, ok))
  {
    hide Held, NoneLost, StreamsOk;
    ChosenKeepsStreams(s, gen, ok);
    OthersStillHold(s, Chosen(s, gen, ok), gen);
  }

  lemma ConnectKeepsStreams(s: State, gen: nat, hasAudio: bool, connects: bool)
    requires StatusOk(s) && StreamsOk(s)
    ensures StreamsOk(Connect(s, gen, hasAudio, connects))
  {
  }

  lemma ConnectKeepsOk(s: State, gen: nat, hasAudio: bool, connects: bool)
    requires Ok(s)
    ensures Ok(Connect(s, gen, hasAudio, connects))
  {
    hide Held, NoneLost, StreamsOk;
    ConnectKeepsStreams(s, gen, hasAudio, connects);
    OthersStillHold(s, Connect(s, gen, hasAudio, connects), gen);
  }

  lemma ResumedKeepsStreams(s: State, gen: nat, outcome: Resume)
    requires StatusOk(s) && StreamsOk(s)
    ensures StreamsOk(Resumed(s, gen, outcome))
  {
  }

  lemma ResumedKeepsOk(s: State, gen: nat, outcome: Resume)
    requires Ok(s)
    ensures Ok(Resumed(s, gen, outcome))
  {
    hide Held, NoneLost, StreamsOk;
    ResumedKeepsStreams(s, gen, outcome);
    NewestStart(s);
    OthersStillHold(s, Resumed(s, gen, outcome), gen);
  }

  lemma EndedKeepsOk(s: State, stream: StreamId)
    requires Ok(s)
    ensures Ok(Ended(s, stream))
  {
    if stream in s.listening && s.stream == Some(stream) {
      StopKeepsOk(s);
      ListeningMatters(Stop(s), s.listening - {stream});
    } else {
      ListeningMatters(s, s.listening - {stream});
    }
  }

  /** Only the captured stream of an active capture has to be listened to. */
  lemma ListeningMatters(s: State, listening: set<StreamId>)
    requires Ok(s) && (s.status == Active ==> s.stream.value in listening)
    ensures Ok(s.(listening := listening))
  {
    hide NoneLost;
    var t := s.(listening := listening);
    assert NoneLost(t) by { OthersStillHold(s, t, s.generation + 1); }
  }

  lemma StepKeepsOk(s: State, a: Action)
    requires Ok(s)
    ensures Ok(Step(s, a))
  {
    hide Ok;
    match a
    case DoStart(supported) => StartKeepsOk(s, supported);
    case DoPrepared(gen, ok) => PreparedKeepsOk(s, gen, ok);
    case DoChosen(gen, ok) => ChosenKeepsOk(s, gen, ok);
    case DoConnect(gen, hasAudio, connects) => ConnectKeepsOk(s, gen, hasAudio, connects);
    case DoResumed(gen, outcome) => ResumedKeepsOk(s, gen, outcome);
    case DoStop => StopKeepsOk(s);
    case DoEnded(stream) => EndedKeepsOk(s, stream);
  }

  // ---------------------------------------------------------------- runs

  ghost predicate IsRun(run: seq<State>, acts: seq<Action>) {
    && |run| == |acts| + 1 && run[0] == INITIAL
    && forall i :: 0 <= i < |acts| ==> run[i + 1] == Step(run[i], acts[i])
  }

  lemma {:induction false} RunKeepsOk(run: seq<State>, acts: seq<Action>, i: nat)
    requires IsRun(run, acts) && i < |run|
    ensures forall k :: 0 <= k <= i ==> Ok(run[k])
  {
    hide Step;
    if i > 0 {
      RunKeepsOk(run, acts, i - 1);
      StepKeepsOk(run[i - 1], acts[i - 1]);
    }
  }

  /**
   At every point of every interleaving: a live stream is the captured one, or its start has not run since
   the browser handed it out; the captured one is live; and an active capture has the analyser on it.
   */
  lemma NoStreamLeaks(run: seq<State>, acts: seq<Action>, i: nat)
    requires IsRun(run, acts) && i < |run|
    ensures
      var s := run[i];
      && (forall x :: x in s.live && s.stream != Some(x) ==> exists g :: g in s.starts && s.starts[g] == Acquired(x))
      && (s.starts == map[] ==> s.live == if s.stream.Some? then {s.stream.value} else {})
      && (s.status == Active ==> s.stream.Some? && s.stream.value in s.live && s.analyzer == s.stream && s.stream.value in s.listening)
      && s.analyzer == s.stream
  {
    hide Step;
    RunKeepsOk(run, acts, i);
    var s := run[i];
    forall x | x in s.live && s.stream != Some(x) ensures exists g :: g in s.starts && s.starts[g] == Acquired(x) {
      var g :| g in s.starts && Holds(s.starts[g], x);
      HolderHasNotRun(s, g, x);
    }
  }

  lemma HolderHasNotRun(s: State, g: nat, x: StreamId)
    requires Ok(s) && x in s.live && s.stream != Some(x) && g in s.starts && Holds(s.starts[g], x)
    ensures s.starts[g] == Acquired(x)
  {
  }

  predicate Continues(a: Action) {
    a.DoPrepared? || a.DoChosen? || a.DoConnect? || a.DoResumed?
  }

  /** The start a continuation belongs to was overtaken by a stop or a newer start. */
  predicate Superseded(s: State, a: Action)
    requires Continues(a)
  {
    a.gen != s.generation
  }

  /** A superseded start changes neither status nor stream nor analyser, and when it is over its stream is stopped. */
  lemma SupersededIsSilent(s: State, a: Action)
    requires Ok(s) && Continues(a) && Superseded(s, a)
    ensures
      var t := Step(s, a);
      && t.status == s.status && t.stream == s.stream && t.analyzer == s.analyzer && t.generation == s.generation
      && (a.gen in s.starts && a.gen !in t.starts ==> forall x :: Holds(s.starts[a.gen], x) ==> x !in t.live)
      && (a.gen in s.starts && s.starts[a.gen].Acquired? && a.DoConnect? ==> a.gen !in t.starts)
  {
  }

  /** Once superseded, a start stays superseded. */
  lemma {:induction false} SupersededForever(run: seq<State>, acts: seq<Action>, i: nat, j: nat, gen: nat)
    requires IsRun(run, acts) && i <= j < |run| && gen < run[i].generation
    ensures gen < run[j].generation
  {
    hide Step;
    if i < j {
      SupersededForever(run, acts, i, j - 1, gen);
      GenerationGrows(run[j - 1], acts[j - 1]);
      assert run[j - 1 + 1] == Step(run[j - 1], acts[j - 1]);
    }
  }

  lemma GenerationGrows(s: State, a: Action)
    ensures s.generation <= Step(s, a).generation
  {
  }

  // ---------------------------------------------------------------- how a start ends

  /** A capture becomes active only when the analyser reports running to the current start, with the stream it holds. */
  lemma ActiveOnlyWhenRunning(s: State, a: Action)
    requires Ok(s) && s.status != Active && Step(s, a).status == Active
    ensures a == DoResumed(s.generation, Running) && s.generation in s.starts
    ensures s.starts[s.generation].Resuming? && Step(s, a).stream == Some(s.starts[s.generation].stream)
  {
    hide NoneLost;
  }

  /** Captures nothing: idle, no stream, the analyser disconnected. */
  predicate Released(s: State) {
    s.status == Idle && s.stream.None? && s.analyzer.None?
  }

  /** An analyser that does not run, or fails, ends the current start with its stream stopped. */
  lemma NotRunningReleases(s: State, outcome: Resume)
    requires Ok(s) && s.generation in s.starts && s.starts[s.generation].Resuming? && outcome != Running
    ensures
      var t := Resumed(s, s.generation, outcome);
      Released(t) && s.starts[s.generation].stream !in t.live && s.generation !in t.starts
  {
    hide NoneLost;
  }

  /** So does any other way in which the current start ends without success; whatever stream it had is stopped. */
  lemma FailureReleases(s: State, a: Action)
    requires Ok(s) && Continues(a) && a.gen == s.generation && a.gen in s.starts
    requires var t := Step(s, a); a.gen !in t.starts && t.status != Active
    ensures
      var t := Step(s, a);
      Released(t) && forall x :: Holds(s.starts[a.gen], x) ==> x !in t.live
  {
    hide NoneLost;
  }

  /** Stopping, or the end of the captured stream, releases the capture; the end of another stream does not. */
  lemma StopReleases(s: State, ended: StreamId)
    requires Ok(s)
    ensures Released(Stop(s)) && (s.stream.Some? ==> s.stream.value !in Stop(s).live)
    ensures s.status == Active && s.stream == Some(ended) ==> Ended(s, ended) == Stop(s.(listening := s.listening - {ended}))
    ensures s.stream != Some(ended) ==> Ended(s, ended) == s.(listening := s.listening - {ended})
  {
    hide NoneLost, StreamsOk;
  }

  /** The continuation is the one its start is waiting for. */
  predicate Awaited(s: State, a: Action)
    requires Continues(a)
  {
    a.gen in s.starts &&
    match s.starts[a.gen]
    case Preparing => a.DoPrepared?
    case Choosing => a.DoChosen?
    case Acquired(_) => a.DoConnect?
    case Resuming(_) => a.DoResumed?
  }

  predicate Fails(a: Action) {
    || (a.DoPrepared? && !a.ok) || (a.DoChosen? && !a.ok) || (a.DoConnect? && !(a.hasAudio && a.connects))
    || (a.DoResumed? && a.outcome != Running)
  }

  /** An await that fails ends its start; a superseded start ends at its next continuation, except that it still
      receives a stream already asked for.  Either way no stream is gained and its own is stopped. */
  lemma FailureEndsStart(s: State, a: Action)
    requires Ok(s) && Continues(a) && Awaited(s, a) && (Fails(a) || (Superseded(s, a) && !a.DoChosen?))
    ensures
      var t := Step(s, a);
      a.gen !in t.starts && t.live <= s.live && forall x :: Holds(s.starts[a.gen], x) ==> x !in t.live
  {
    hide NoneLost;
  }

  /** No continuation of `gen` runs from `i` to `j`. */
  ghost predicate Undisturbed(acts: seq<Action>, gen: nat, i: nat, j: nat)
    requires j <= |acts|
  {
    forall k :: i <= k < j && Continues(acts[k]) ==> acts[k].gen != gen
  }

  lemma StepKeepsPhase(s: State, a: Action, gen: nat)
    requires gen == s.generation == Step(s, a).generation && gen in s.starts && (Continues(a) ==> a.gen != gen)
    ensures gen in Step(s, a).starts && Step(s, a).starts[gen] == s.starts[gen]
  {
  }

  /** While nothing supersedes a start, only its own continuations move it on. */
  lemma {:induction false} StartWaits(run: seq<State>, acts: seq<Action>, i: nat, j: nat, gen: nat)
    requires IsRun(run, acts) && i <= j < |run| && Undisturbed(acts, gen, i, j)
    requires run[i].generation == gen == run[j].generation && gen in run[i].starts
    ensures gen in run[j].starts && run[j].starts[gen] == run[i].starts[gen]
  {
    hide Step, Continues;
    if i < j {
      StillCurrent(run, acts, i, j - 1, j);
      StartWaits(run, acts, i, j - 1, gen);
      assert run[j - 1 + 1] == Step(run[j - 1], acts[j - 1]);
      StepKeepsPhase(run[j - 1], acts[j - 1], gen);
    }
  }

  lemma {:induction false} GenerationsGrow(run: seq<State>, acts: seq<Action>, i: nat, j: nat)
    requires IsRun(run, acts) && i <= j < |run|
    ensures run[i].generation <= run[j].generation
  {
    hide Step;
    if i < j {
      GenerationsGrow(run, acts, i, j - 1);
      GenerationGrows(run[j - 1], acts[j - 1]);
      assert run[j - 1 + 1] == Step(run[j - 1], acts[j - 1]);
    }
  }

  lemma StillCurrent(run: seq<State>, acts: seq<Action>, i: nat, k: nat, j: nat)
    requires IsRun(run, acts) && i <= k <= j < |run| && run[i].generation == run[j].generation
    ensures run[k].generation == run[i].generation
  {
    hide Step;
    GenerationsGrow(run, acts, i, k);
    GenerationsGrow(run, acts, k, j);
  }

  /** The steps at which a start runs: it is accepted, prepared, given a stream, connected and resumed. */
  datatype Course = Course(start: nat, prepared: nat, chosen: nat, connected: nat, resumed: nat)

  ghost predicate Succeeds(acts: seq<Action>, gen: nat, c: Course) {
    && c.start < c.prepared < c.chosen < c.connected < c.resumed < |acts|
    && acts[c.start] == DoStart(true) && acts[c.prepared] == DoPrepared(gen, true) && acts[c.chosen] == DoChosen(gen, true)
    && acts[c.connected] == DoConnect(gen, true, true) && acts[c.resumed] == DoResumed(gen, Running)
    && Undisturbed(acts, gen, c.start + 1, c.prepared) && Undisturbed(acts, gen, c.prepared + 1, c.chosen)
    && Undisturbed(acts, gen, c.chosen + 1, c.connected) && Undisturbed(acts, gen, c.connected + 1, c.resumed)
  }

  /**
   A start that is accepted, succeeds at every await and is not superseded ends active, whatever else runs
   in between: the stream the user chose for it is captured, live and connected to the analyser.
   */
  lemma SuccessCaptures(run: seq<State>, acts: seq<Action>, gen: nat, c: Course)
    requires IsRun(run, acts) && Succeeds(acts, gen, c)
    requires run[c.start].generation + 1 == gen == run[c.start + 1].generation == run[c.resumed].generation
    ensures
      var t := run[c.resumed + 1];
      var chosen := run[c.chosen].next;
      && t.status == Active && t.stream == Some(chosen) && chosen in t.live && t.analyzer == Some(chosen)
      && t.generation == gen && chosen in t.listening
  {
    hide Step, Continues, Undisturbed;
    Prepares(run, acts, gen, c);
    Chooses(run, acts, gen, c);
    Connects(run, acts, gen, c);
    StillCurrent(run, acts, c.start + 1, c.connected + 1, c.resumed);
    StartWaits(run, acts, c.connected + 1, c.resumed, gen);
    Captures(run[c.resumed], gen, run[c.chosen].next);
    assert run[c.resumed + 1] == Step(run[c.resumed], acts[c.resumed]);
    StepIsResumed(run[c.resumed], gen, Running);
    NoStreamLeaks(run, acts, c.resumed + 1);
  }

  lemma StepIsResumed(s: State, gen: nat, outcome: Resume)
    ensures Step(s, DoResumed(gen, outcome)) == Resumed(s, gen, outcome)
  {
  }

  lemma ResumeOutcome(s: State, gen: nat, outcome: Resume)
    requires Ok(s) && gen in s.starts && s.starts[gen].Resuming?
    ensures
      var t := Resumed(s, gen, outcome);
      if gen != s.generation then t.live == s.live
      else if outcome == Running then t.status == Active && t.stream == Some(s.starts[gen].stream)
      else Released(t) && s.starts[gen].stream !in t.live
  {
    hide NoneLost;
  }

  lemma Captures(s: State, gen: nat, chosen: StreamId)
    requires gen == s.generation && gen in s.starts && s.starts[gen] == Resuming(chosen)
    ensures
      var t := Resumed(s, gen, Running);
      t.status == Active && t.stream == Some(chosen) && t.generation == gen
  {
  }

  lemma Prepares(run: seq<State>, acts: seq<Action>, gen: nat, c: Course)
    requires IsRun(run, acts) && Succeeds(acts, gen, c)
    requires run[c.start].generation + 1 == gen == run[c.start + 1].generation == run[c.resumed].generation
    ensures gen in run[c.prepared + 1].starts && run[c.prepared + 1].starts[gen] == Choosing
  {
    hide Undisturbed;
    assert run[c.start + 1] == Step(run[c.start], acts[c.start]);
    assert run[c.start + 1].starts[gen] == Preparing;
    StillCurrent(run, acts, c.start + 1, c.prepared, c.resumed);
    StartWaits(run, acts, c.start + 1, c.prepared, gen);
    assert run[c.prepared + 1] == Step(run[c.prepared], acts[c.prepared]);
  }

  lemma Chooses(run: seq<State>, acts: seq<Action>, gen: nat, c: Course)
    requires IsRun(run, acts) && Succeeds(acts, gen, c) && gen == run[c.start + 1].generation == run[c.resumed].generation
    requires gen in run[c.prepared + 1].starts && run[c.prepared + 1].starts[gen] == Choosing
    ensures gen in run[c.chosen + 1].starts && run[c.chosen + 1].starts[gen] == Acquired(run[c.chosen].next)
  {
    hide Undisturbed;
    StillCurrent(run, acts, c.start + 1, c.prepared + 1, c.resumed);
    StillCurrent(run, acts, c.start + 1, c.chosen, c.resumed);
    StartWaits(run, acts, c.prepared + 1, c.chosen, gen);
    assert run[c.chosen + 1] == Step(run[c.chosen], acts[c.chosen]);
  }

  lemma Connects(run: seq<State>, acts: seq<Action>, gen: nat, c: Course)
    requires IsRun(run, acts) && Succeeds(acts, gen, c) && gen == run[c.start + 1].generation == run[c.resumed].generation
    requires gen in run[c.chosen + 1].starts && run[c.chosen + 1].starts[gen] == Acquired(run[c.chosen].next)
    ensures gen in run[c.connected + 1].starts && run[c.connected + 1].starts[gen] == Resuming(run[c.chosen].next)
  {
    hide Undisturbed;
    StillCurrent(run, acts, c.start + 1, c.chosen + 1, c.resumed);
    StillCurrent(run, acts, c.start + 1, c.connected, c.resumed);
    StartWaits(run, acts, c.chosen + 1, c.connected, gen);
    assert run[c.connected + 1] == Step(run[c.connected], acts[c.connected]);
  }

  // ---------------------------------------------------------------- the capture object

  class LocalAudioCapture {
    var status: Status
    var stream: Option<StreamId>
    var generation: nat
    var analyzer: Option<StreamId>
    var starts: map<nat, Phase>
    var live: set<StreamId>
    var listening: set<StreamId>
    var nextStream: StreamId
    const journal: Journal<State, Action>

    ghost function View(): State
      reads this
    {
      State(status, stream, generation, analyzer, starts, live, listening, nextStream)
    }

    /** The fields are where a run of the steps has led. */
    ghost predicate Valid()
      reads this, journal
    {
      IsRun(journal.run, journal.acts) && View() == journal.run[|journal.acts|]
    }

    twostate predicate Did(a: Action)
      reads this, journal
    {
      Valid() && journal.acts == old(journal.acts) + [a] && journal.run == old(journal.run) + [View()]
    }

    constructor ()
      ensures Valid() && View() == INITIAL && fresh(journal) && journal.acts == []
    {
      status, stream, generation, analyzer := Idle, None, 0, None;
      starts, live, listening, nextStream := map[], {}, {}, 0;
      journal := new Journal(INITIAL);
    }

    ghost method Record(a: Action)
      requires IsRun(journal.run, journal.acts) && View() == Step(journal.run[|journal.acts|], a)
      modifies journal
      ensures Did(a)
    {
      journal.Note(a, View());
    }

    /** What holds of the object whenever none of its methods is running. */
    lemma NothingLeaked()
      requires Valid()
      ensures forall x :: x in live && stream != Some(x) ==> exists g :: g in starts && starts[g] == Acquired(x)
      ensures analyzer == stream
      ensures status == Active ==> stream.Some? && stream.value in live
      ensures status == Requesting <==> generation in starts
    {
      hide Step;
      RunKeepsOk(journal.run, journal.acts, |journal.acts|);
      NoStreamLeaks(journal.run, journal.acts, |journal.acts|);
    }

    /** The body of `stop`, which `start` and the listeners call as well. */
    method Release()
      modifies this
      ensures View() == Stop(old(View()))
    {
      generation := generation + 1;
      var stopped := stream;
      stream := None;
      if stopped.Some? {
        live := live - {stopped.value};
      }
      analyzer := None;
      status := Idle;
    }

    method StopCapture()
      requires Valid()
      modifies this, journal
      ensures Did(DoStop) && View() == Stop(old(View()))
    {
      Release();
      Record(DoStop);
    }

    method StartCapture(supported: bool) returns (accepted: bool)
      requires Valid()
      modifies this, journal
      ensures Did(DoStart(supported)) && View() == Start(old(View()), supported)
      ensures accepted <==> generation > old(generation)
    {
      accepted := !((status == Active && stream.Some?) || status == Requesting || !supported);
      if accepted {
        generation := generation + 1;
        starts := starts[generation := Preparing];
        status := Requesting;
      }
      Record(DoStart(supported));
    }

    method Leave(gen: nat)
      modifies this
      ensures View() == GiveUp(old(View()), gen)
    {
      starts := starts - {gen};
      if gen == generation {
        status := Idle;
      }
    }

    method AfterPrepare(gen: nat, ok: bool)
      requires Valid()
      modifies this, journal
      ensures Did(DoPrepared(gen, ok)) && View() == Prepared(old(View()), gen, ok)
    {
      if gen in starts && starts[gen] == Preparing {
        if !ok || gen != generation {
          Leave(gen);
        } else {
          starts := starts[gen := Choosing];
        }
      }
      Record(DoPrepared(gen, ok));
    }

    method AfterChoice(gen: nat, ok: bool)
      requires Valid()
      modifies this, journal
      ensures Did(DoChosen(gen, ok)) && View() == Chosen(old(View()), gen, ok)
    {
      if gen in starts && starts[gen] == Choosing {
        if !ok {
          Leave(gen);
        } else {
          starts := starts[gen := Acquired(nextStream)];
          live := live + {nextStream};
          nextStream := nextStream + 1;
        }
      }
      Record(DoChosen(gen, ok));
    }

    method ConnectChosen(gen: nat, hasAudio: bool, connects: bool)
      requires Valid()
      modifies this, journal
      ensures Did(DoConnect(gen, hasAudio, connects)) && View() == Connect(old(View()), gen, hasAudio, connects)
    {
      if gen in starts && starts[gen].Acquired? {
        var chosen := starts[gen].stream;
        if gen != generation || !hasAudio {
          live := live - {chosen};
          Leave(gen);
        } else if !connects {
          analyzer := None;
          live := live - {chosen};
          Leave(gen);
        } else {
          analyzer := Some(chosen);
          stream := Some(chosen);
          starts := starts[gen := Resuming(chosen)];
        }
      }
      Record(DoConnect(gen, hasAudio, connects));
    }

    /** What a resumed start does with its stream. */
    method Conclude(gen: nat, outcome: Resume)
      modifies this
      ensures View() == Resumed(old(View()), gen, outcome)
    {
      if gen in starts && starts[gen].Resuming? {
        var chosen := starts[gen].stream;
        starts := starts - {gen};
        if outcome == Throws {
          if gen == generation {
            Release();
          }
          live := live - {chosen};
        } else if gen != generation {
          live := live - {chosen};
        } else if outcome == NotRunning {
          Release();
        } else {
          stream := Some(chosen);
          listening := listening + {chosen};
          status := Active;
        }
      }
    }

    method AfterResume(gen: nat, outcome: Resume)
      requires Valid()
      modifies this, journal
      ensures Did(DoResumed(gen, outcome)) && View() == Resumed(old(View()), gen, outcome)
      ensures old(gen != generation && gen in starts && starts[gen].Resuming?) ==> live == old(live)
      ensures old(gen == generation && gen in starts && starts[gen].Resuming?) ==>
        if outcome == Running then status == Active && stream == Some(old(starts)[gen].stream)
        else Released(View()) && old(starts)[gen].stream !in live
    {
      hide Ok, Step;
      ghost var before := View();
      RunKeepsOk(journal.run, journal.acts, |journal.acts|);
      if gen in starts && starts[gen].Resuming? {
        ResumeOutcome(before, gen, outcome);
      }
      Conclude(gen, outcome);
      StepIsResumed(before, gen, outcome);
      Record(DoResumed(gen, outcome));
    }

    /** The stream of a start superseded while the analyser resumes was stopped by what superseded it. */
    lemma SupersededStreamIsStopped(gen: nat)
      requires Valid()
      ensures gen in starts && starts[gen].Resuming? && gen != generation ==> starts[gen].stream !in live
    {
      hide Step;
      RunKeepsOk(journal.run, journal.acts, |journal.acts|);
    }

    method TrackEnded(ended: StreamId)
      requires Valid()
      modifies this, journal
      ensures Did(DoEnded(ended)) && View() == Ended(old(View()), ended)
    {
      if ended in listening {
        listening := listening - {ended};
        if stream == Some(ended) {
          Release();
        }
      }
      Record(DoEnded(ended));
    }
  }
}
