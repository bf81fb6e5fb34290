/**
 Hit gating and tempo tracking in `tick` of `web/src/core/AudioAnalyzer.js`.  What the spectrum
 contributes to a frame is input; the decay factor of the confidence is any number in (0, 1].
 */
module TempoTracker {
  import opened Numbers

  /** One frame: playback time, confidence decay and what the band analysis says. */
  datatype Frame = Frame(
    now: real,
    decay: real,
    score: real,
    lowPresence: real,
    drumGate: bool,
    drumLoud: bool,       // drum onset above 0.84 of its average
    attackForKick: bool,  // low attack above the kick threshold
    attackForAssist: bool)

  datatype Tracker = Tracker(
    lastHitAt: real,
    tempoGap: real,
    confidence: real,
    gapHistory: seq<real>,
    primedFrames: nat,
    warmupUntil: real)

  const NO_HIT := -10.0
  const MIN_GAP := 0.42
  const MAX_GAP := 0.88
  const MIN_HIT_GAP := 0.340

  function Reset(warmupUntil: real): Tracker {
    Tracker(NO_HIT, 0.0, 0.0, [], 0, warmupUntil)
  }

  // ---------------------------------------------------------------- folding a gap into the tempo range

  function HalvedToRange(gap: real): real
    decreases (gap / 0.44).Floor
  {
    if gap > MAX_GAP then HalvedToRange(gap * 0.5) else gap
  }

  function DoubledToRange(gap: real): real
    requires gap > 0.0
    decreases (MIN_GAP / gap).Floor
  {
    if gap < MIN_GAP then
      DoublingShrinks(gap);
      DoubledToRange(gap * 2.0)
    else gap
  }

  lemma DoublingShrinks(gap: real)
    requires 0.0 < gap < MIN_GAP
    ensures (MIN_GAP / (gap * 2.0)).Floor < (MIN_GAP / gap).Floor
  {
    var x := MIN_GAP / gap;
    assert x > 1.0;
    assert MIN_GAP / (gap * 2.0) == x / 2.0;
    if x < 2.0 {
      assert x.Floor == 1 && (x / 2.0).Floor == 0;
    } else {
      assert x / 2.0 <= x - 1.0;
    }
  }

  function Folded(gap: real): real
    requires gap > 0.0
  {
    HalvedIsPositive(gap);
    DoubledToRange(HalvedToRange(gap))
  }

  lemma {:induction false} HalvedIsPositive(gap: real)
    requires gap > 0.0
    ensures 0.0 < HalvedToRange(gap) <= MAX_GAP
    ensures gap > MAX_GAP ==> HalvedToRange(gap) > 0.44
    ensures gap <= MAX_GAP ==> HalvedToRange(gap) == gap
    decreases (gap / 0.44).Floor
  {
    if gap > MAX_GAP {
      HalvedIsPositive(gap * 0.5);
    }
  }

  lemma {:induction false} DoubledInRange(gap: real)
    requires 0.0 < gap <= MAX_GAP
    ensures MIN_GAP <= DoubledToRange(gap) <= MAX_GAP
    decreases (MIN_GAP / gap).Floor
  {
    if gap < MIN_GAP {
      DoublingShrinks(gap);
      DoubledInRange(gap * 2.0);
    }
  }

  /** Any positive gap ends up in the range, so the range test after the loops always succeeds. */
  lemma FoldedInRange(gap: real)
    requires gap > 0.0
    ensures MIN_GAP <= Folded(gap) <= MAX_GAP
  {
    HalvedIsPositive(gap);
    DoubledInRange(HalvedToRange(gap));
  }

  /** The gap `k` octaves up. */
  function Octaves(gap: real, k: int): real
    decreases if k < 0 then -k else k
  {
    if k == 0 then gap else if k > 0 then Octaves(gap, k - 1) * 2.0 else Octaves(gap, k + 1) * 0.5
  }

  lemma {:induction false} OctavesFrom(gap: real, k: int)
    ensures Octaves(gap * 2.0, k) == Octaves(gap, k + 1)
    ensures Octaves(gap * 0.5, k) == Octaves(gap, k - 1)
    decreases if k < 0 then -k else k
  {
    if k > 0 {
      OctavesFrom(gap, k - 1);
    } else if k < 0 {
      OctavesFrom(gap, k + 1);
    }
  }

  lemma {:induction false} HalvedByOctaves(gap: real) returns (k: int)
    ensures HalvedToRange(gap) == Octaves(gap, k)
    decreases (gap / 0.44).Floor
  {
    if gap > MAX_GAP {
      var m := HalvedByOctaves(gap * 0.5);
      OctavesFrom(gap, m);
      k := m - 1;
    } else {
      k := 0;
    }
  }

  lemma {:induction false} DoubledByOctaves(gap: real) returns (k: int)
    requires gap > 0.0
    ensures DoubledToRange(gap) == Octaves(gap, k)
    decreases (MIN_GAP / gap).Floor
  {
    if gap < MIN_GAP {
      DoublingShrinks(gap);
      var m := DoubledByOctaves(gap * 2.0);
      OctavesFrom(gap, m);
      k := m + 1;
    } else {
      k := 0;
    }
  }

  /** Folding shifts by whole octaves: one of the two loops runs, never both. */
  lemma FoldedByOctaves(gap: real) returns (k: int)
    requires gap > 0.0
    ensures Folded(gap) == Octaves(gap, k)
    ensures gap > MAX_GAP ==> Folded(gap) == HalvedToRange(gap)
    ensures gap <= MAX_GAP ==> Folded(gap) == DoubledToRange(gap)
  {
    HalvedIsPositive(gap);
    if gap > MAX_GAP {
      k := HalvedByOctaves(gap);
    } else {
      k := DoubledByOctaves(gap);
    }
  }

  // ---------------------------------------------------------------- one frame

  predicate Locked(t: Tracker) {
    MIN_GAP <= t.tempoGap <= MAX_GAP && t.confidence > 0.38
  }

  predicate Strong(f: Frame) {
    f.drumGate && f.score > 0.54 && f.drumLoud
  }

  predicate Kick(f: Frame) {
    f.drumGate && f.score > 0.40 && f.attackForKick
  }

  /** The frame lies where the tempo expects the next beat. */
  predicate Due(t: Tracker, f: Frame) {
    var gap := f.now - t.lastHitAt;
    var window := Max(0.055, Min(0.105, t.tempoGap * 0.16));
    t.tempoGap > 0.0 && t.tempoGap - window < gap < t.tempoGap + window
  }

  predicate Assisted(t: Tracker, f: Frame) {
    Due(t, f) && t.confidence > 0.42 && f.drumGate && f.lowPresence > 0.48 && f.score > 0.22 && f.attackForAssist
  }

  predicate WarmingUp(t: Tracker, f: Frame) {
    f.now < t.warmupUntil || t.primedFrames + 1 < 18
  }

  /** The rhythm gate for a candidate. */
  predicate InRhythm(t: Tracker, f: Frame) {
    var gap := f.now - t.lastHitAt;
    if t.lastHitAt < 0.0 then Strong(f) && f.score > 0.62 && f.lowPresence > 0.48
    else if Locked(t) then
      var window := Max(0.070, Min(0.110, t.tempoGap * 0.16));
      || (Abs(gap - t.tempoGap) <= window && (Kick(f) || Strong(f)))
      || (Abs(gap - t.tempoGap * 2.0) <= window * 1.35 && Strong(f) && f.score > 0.58)
      || (gap > t.tempoGap * 1.55 && Strong(f) && f.lowPresence > 0.44)
    else gap >= MIN_HIT_GAP && Strong(f) && f.score > 0.58 && f.lowPresence > 0.44
  }

  function MinGap(t: Tracker): real {
    if Locked(t) then Max(0.400, Min(0.540, t.tempoGap * 0.72)) else MIN_HIT_GAP
  }

  predicate Hit(t: Tracker, f: Frame) {
    && (Strong(f) || Kick(f) || Assisted(t, f)) && !WarmingUp(t, f)
    && InRhythm(t, f)
    && f.now - t.lastHitAt >= MinGap(t)
  }

  lemma MinGapAtLeast(t: Tracker)
    ensures MinGap(t) >= MIN_HIT_GAP
    ensures Locked(t) ==> MinGap(t) >= 0.400
  {
  }

  /** The tempo estimate after a hit. */
  function Retuned(t: Tracker, f: Frame): Tracker
    requires Hit(t, f)
  {
    MinGapAtLeast(t);
    var gap := Folded(f.now - t.lastHitAt);
    var ease := if Locked(t) then 0.10 else 0.22;
    var history := t.gapHistory + [gap];
    t.(tempoGap := if t.tempoGap != 0.0 then t.tempoGap * (1.0 - ease) + gap * ease else gap,
       confidence := Min(1.0, t.confidence * f.decay + (if Assisted(t, f) then 0.04 else 0.18)),
       gapHistory := if |history| > 24 then history[1..] else history)
  }

  function Tick(t: Tracker, f: Frame): Tracker {
    var primed := t.(primedFrames := t.primedFrames + 1);
    if !Hit(t, f) then primed.(confidence := t.confidence * f.decay)
    else if t.lastHitAt > 0.0 then Retuned(t, f).(primedFrames := t.primedFrames + 1, lastHitAt := f.now)
    else primed.(confidence := t.confidence * f.decay, lastHitAt := f.now)
  }

  // ---------------------------------------------------------------- runs between resets

  ghost predicate Ok(t: Tracker) {
    && (t.tempoGap == 0.0 || MIN_GAP <= t.tempoGap <= MAX_GAP)
    && 0.0 <= t.confidence <= 1.0
    && |t.gapHistory| <= 24
    && forall i :: 0 <= i < |t.gapHistory| ==> MIN_GAP <= t.gapHistory[i] <= MAX_GAP
  }

  ghost predicate Decays(f: Frame) {
    0.0 < f.decay <= 1.0
  }

  lemma Faded(confidence: real, decay: real)
    requires 0.0 <= confidence <= 1.0 && 0.0 < decay <= 1.0
    ensures 0.0 <= confidence * decay <= confidence
  {
  }

  lemma TickKeepsOk(t: Tracker, f: Frame)
    requires Ok(t) && Decays(f)
    ensures Ok(Tick(t, f))
  {
    hide Folded, InRhythm, Due, Strong, Kick, WarmingUp;
    Faded(t.confidence, f.decay);
    if Hit(t, f) && t.lastHitAt > 0.0 {
      MinGapAtLeast(t);
      FoldedInRange(f.now - t.lastHitAt);
    }
  }

  function After(warmupUntil: real, frames: seq<Frame>): Tracker {
    if frames == [] then Reset(warmupUntil)
    else Tick(After(warmupUntil, frames[..|frames| - 1]), frames[|frames| - 1])
  }

  /** The instants of the accepted hits. */
  function Hits(warmupUntil: real, frames: seq<Frame>): seq<real> {
    if frames == [] then []
    else
      var before := frames[..|frames| - 1];
      var f := frames[|frames| - 1];
      Hits(warmupUntil, before) + (if Hit(After(warmupUntil, before), f) then [f.now] else [])
  }

  /** In every run the tempo gap, the confidence and the recorded gaps stay in their ranges. */
  lemma {:induction false} RunKeepsOk(warmupUntil: real, frames: seq<Frame>)
    requires forall i :: 0 <= i < |frames| ==> Decays(frames[i])
    ensures Ok(After(warmupUntil, frames))
  {
    if frames != [] {
      RunKeepsOk(warmupUntil, frames[..|frames| - 1]);
      TickKeepsOk(After(warmupUntil, frames[..|frames| - 1]), frames[|frames| - 1]);
    }
  }

  lemma {:induction false} LastHitIsLatest(warmupUntil: real, frames: seq<Frame>)
    ensures
      var hits := Hits(warmupUntil, frames);
      After(warmupUntil, frames).lastHitAt == if hits == [] then NO_HIT else hits[|hits| - 1]
  {
    hide Hit, Retuned;
    if frames != [] {
      LastHitIsLatest(warmupUntil, frames[..|frames| - 1]);
      TickMovesLastHit(After(warmupUntil, frames[..|frames| - 1]), frames[|frames| - 1]);
    }
  }

  lemma TickMovesLastHit(t: Tracker, f: Frame)
    ensures Tick(t, f).lastHitAt == if Hit(t, f) then f.now else t.lastHitAt
  {
  }

  /** Consecutive hits are at least 0.340 s apart, whatever the clock of the media does in between. */
  lemma {:induction false} HitsAreApart(warmupUntil: real, frames: seq<Frame>, i: nat)
    requires i + 1 < |Hits(warmupUntil, frames)|
    ensures Hits(warmupUntil, frames)[i + 1] - Hits(warmupUntil, frames)[i] >= MIN_HIT_GAP
  {
    hide Tick, InRhythm, WarmingUp, Strong, Kick, Assisted;
    var before := frames[..|frames| - 1];
    var earlier := Hits(warmupUntil, before);
    if i + 1 < |earlier| {
      HitsAreApart(warmupUntil, before, i);
    } else {
      LastHitIsLatest(warmupUntil, before);
      MinGapAtLeast(After(warmupUntil, before));
    }
  }

  lemma {:induction false} PrimedIsFrames(warmupUntil: real, frames: seq<Frame>)
    ensures After(warmupUntil, frames).primedFrames == |frames| && After(warmupUntil, frames).warmupUntil == warmupUntil
  {
    hide Hit;
    if frames != [] {
      PrimedIsFrames(warmupUntil, frames[..|frames| - 1]);
    }
  }

  /** No hit is accepted before the warm-up is over, nor among the first 17 frames. */
  lemma {:induction false} NoHitWhileWarming(warmupUntil: real, frames: seq<Frame>)
    ensures |frames| < 18 ==> Hits(warmupUntil, frames) == []
    ensures forall i :: 0 <= i < |Hits(warmupUntil, frames)| ==> Hits(warmupUntil, frames)[i] >= warmupUntil
  {
    hide InRhythm, Strong, Kick, Assisted, After;
    if frames != [] {
      var before := frames[..|frames| - 1];
      NoHitWhileWarming(warmupUntil, before);
      PrimedIsFrames(warmupUntil, before);
    }
  }

  /** What a hit needs: a drum in any case, and the more of it the less the tempo speaks for it. */
  lemma HitEvidence(t: Tracker, f: Frame)
    requires Hit(t, f)
    ensures f.drumGate && f.score > 0.22
    ensures t.lastHitAt < 0.0 ==> f.drumLoud && f.score > 0.62 && f.lowPresence > 0.48
    ensures t.lastHitAt >= 0.0 && !Locked(t) ==> f.drumLoud && f.score > 0.58 && f.lowPresence > 0.44
    ensures t.lastHitAt >= 0.0 && Locked(t) && Abs(f.now - t.lastHitAt - t.tempoGap) > 0.110 ==>
      f.drumLoud && f.score > 0.54
      && (f.now - t.lastHitAt > 1.55 * t.tempoGap || (Abs(f.now - t.lastHitAt - 2.0 * t.tempoGap) <= 0.1485 && f.score > 0.58))
  {
  }

  /** A loud, clear drum is a hit after any pause longer than one and a half beats, and as the first one. */
  lemma ClearBeatIsHit(t: Tracker, f: Frame)
    requires Ok(t) && f.now >= t.warmupUntil && t.primedFrames >= 17
    requires f.drumGate && f.drumLoud && f.score > 0.62 && f.lowPresence > 0.48
    requires f.now - t.lastHitAt > 1.55 * MAX_GAP
    ensures Hit(t, f)
  {
  }

  function Distance(t: Tracker, period: real): real {
    Abs(t.tempoGap - period)
  }

  /** A hit one period after the last brings the tempo at least a tenth nearer to that period. */
  lemma HitApproaches(t: Tracker, f: Frame, period: real)
    requires Hit(t, f) && t.lastHitAt > 0.0 && f.now - t.lastHitAt == period && MIN_GAP <= period <= MAX_GAP
    ensures t.tempoGap == 0.0 ==> Tick(t, f).tempoGap == period
    ensures t.tempoGap != 0.0 ==> Distance(Tick(t, f), period) <= 0.9 * Distance(t, period)
    ensures t.tempoGap != 0.0 ==> Distance(Tick(t, f), period) == (if Locked(t) then 0.90 else 0.78) * Distance(t, period)
  {
    hide Hit, MinGap;
    HalvedIsPositive(period);
    assert Folded(period) == period;
    var ease := if Locked(t) then 0.10 else 0.22;
    assert Tick(t, f).tempoGap == if t.tempoGap != 0.0 then t.tempoGap * (1.0 - ease) + period * ease else period;
  }

  /** Frames without a hit leave the tempo alone and let the confidence fade. */
  lemma MissFades(t: Tracker, f: Frame)
    requires Ok(t) && Decays(f) && !Hit(t, f)
    ensures Tick(t, f).tempoGap == t.tempoGap && Tick(t, f).confidence <= t.confidence
  {
    hide Hit, Retuned;
    Faded(t.confidence, f.decay);
  }

  /** A hit that follows another raises what is left of the confidence by at least 0.04, up to 1. */
  lemma HitRaises(t: Tracker, f: Frame)
    requires Ok(t) && Decays(f) && Hit(t, f) && t.lastHitAt > 0.0
    ensures Tick(t, f).confidence == 1.0 || Tick(t, f).confidence >= t.confidence * f.decay + 0.04
  {
    hide Hit, Folded, Assisted, Locked, Ok, Decays;
    MinGapAtLeast(t);
    var left := t.confidence * f.decay;
    assert Tick(t, f).confidence == Min(1.0, left + if Assisted(t, f) then 0.04 else 0.18);
  }

  /** The tracker after further frames. */
  function Further(t: Tracker, frames: seq<Frame>): Tracker {
    if frames == [] then t else Tick(Further(t, frames[..|frames| - 1]), frames[|frames| - 1])
  }

  /** How many of them are hits. */
  function HitCount(t: Tracker, frames: seq<Frame>): nat {
    if frames == [] then 0
    else
      var before := frames[..|frames| - 1];
      HitCount(t, before) + if Hit(Further(t, before), frames[|frames| - 1]) then 1 else 0
  }

  /** Every hit among the frames comes one period after the hit before it. */
  ghost predicate Steady(t: Tracker, frames: seq<Frame>, period: real) {
    forall n :: 0 <= n < |frames| && Hit(Further(t, frames[..n]), frames[n]) ==>
      Further(t, frames[..n]).lastHitAt > 0.0 && frames[n].now - Further(t, frames[..n]).lastHitAt == period
  }

  function Power(base: real, n: nat): real {
    if n == 0 then 1.0 else base * Power(base, n - 1)
  }

  /** On a steady beat the tempo converges: `n` hits leave at most 0.9 to the n-th of the distance. */
  lemma {:induction false} SteadyBeatConverges(t: Tracker, frames: seq<Frame>, period: real)
    requires t.tempoGap > 0.0 && MIN_GAP <= period <= MAX_GAP && Steady(t, frames, period)
    ensures Further(t, frames).tempoGap > 0.0
    ensures Distance(Further(t, frames), period) <= Power(0.9, HitCount(t, frames)) * Distance(t, period)
  {
    hide Hit, Tick, Distance;
    if frames != [] {
      var before, f := frames[..|frames| - 1], frames[|frames| - 1];
      StillSteady(t, frames, period);
      SteadyBeatConverges(t, before, period);
      var u := Further(t, before);
      if Hit(u, f) {
        assert Further(t, frames[..|before|]) == u;
        HitApproaches(u, f, period);
        StaysPositive(u, f, period);
        Shrinks(Distance(Tick(u, f), period), Distance(u, period), Power(0.9, HitCount(t, before)), Distance(t, period));
      } else {
        MissKeepsTempo(u, f, period);
      }
    } else {
      NothingShrinks(Distance(t, period));
    }
  }

  lemma StillSteady(t: Tracker, frames: seq<Frame>, period: real)
    requires Steady(t, frames, period) && frames != []
    ensures Steady(t, frames[..|frames| - 1], period)
  {
    hide Hit, Further;
    var before := frames[..|frames| - 1];
    forall n | 0 <= n < |before| && Hit(Further(t, before[..n]), before[n])
      ensures Further(t, before[..n]).lastHitAt > 0.0 && before[n].now - Further(t, before[..n]).lastHitAt == period
    {
      assert before[..n] == frames[..n] && before[n] == frames[n];
    }
  }

  lemma StaysPositive(t: Tracker, f: Frame, period: real)
    requires Hit(t, f) && t.lastHitAt > 0.0 && f.now - t.lastHitAt == period && MIN_GAP <= period <= MAX_GAP
    requires t.tempoGap > 0.0
    ensures Tick(t, f).tempoGap > 0.0
  {
    hide Hit, MinGap;
    HalvedIsPositive(period);
    assert Folded(period) == period;
  }

  lemma MissKeepsTempo(t: Tracker, f: Frame, period: real)
    requires !Hit(t, f)
    ensures Tick(t, f).tempoGap == t.tempoGap && Distance(Tick(t, f), period) == Distance(t, period)
  {
    hide Hit;
  }

  lemma Shrinks(now: real, before: real, factor: real, start: real)
    requires now <= 0.9 * before && before <= factor * start
    ensures now <= 0.9 * factor * start
  {
  }

  lemma NothingShrinks(start: real)
    ensures start <= Power(0.9, 0) * start
  {
  }

  // ---------------------------------------------------------------- the analyser's fields

  class AudioAnalyzer {
    var lastHitAt: real
    var tempoGap: real
    var tempoConfidence: real
    var gapHistory: seq<real>
    var primedFrames: nat
    var warmupUntil: real
    ghost var frames: seq<Frame>   // since the last reset
    ghost const warmup: real

    ghost function View(): Tracker
      reads this
    {
      Tracker(lastHitAt, tempoGap, tempoConfidence, gapHistory, primedFrames, warmupUntil)
    }

    /** The fields are what the frames so far make of them. */
    ghost predicate Valid()
      reads this
    {
      View() == After(warmup, frames) && forall i :: 0 <= i < |frames| ==> Decays(frames[i])
    }

    constructor (warmup: real)
      ensures Valid() && frames == [] && this.warmup == warmup && View() == Reset(warmup)
    {
      lastHitAt, tempoGap, tempoConfidence, gapHistory, primedFrames, warmupUntil := NO_HIT, 0.0, 0.0, [], 0, warmup;
      frames := [];
      this.warmup := warmup;
    }

    /** What holds of the fields between two frames. */
    lemma AlwaysInRange()
      requires Valid()
      ensures tempoGap == 0.0 || MIN_GAP <= tempoGap <= MAX_GAP
      ensures 0.0 <= tempoConfidence <= 1.0 && |gapHistory| <= 24
      ensures forall i :: 0 <= i < |Hits(warmup, frames)| - 1 ==>
        Hits(warmup, frames)[i + 1] - Hits(warmup, frames)[i] >= MIN_HIT_GAP
    {
      hide After, Hits;
      RunKeepsOk(warmup, frames);
      forall i | 0 <= i < |Hits(warmup, frames)| - 1
        ensures Hits(warmup, frames)[i + 1] - Hits(warmup, frames)[i] >= MIN_HIT_GAP
      {
        HitsAreApart(warmup, frames, i);
      }
    }

    /** The two `while` loops on the gap. */
    method FoldGap(raw: real) returns (gap: real)
      requires raw > 0.0
      ensures gap == Folded(raw) && MIN_GAP <= gap <= MAX_GAP
    {
      FoldedInRange(raw);
      gap := raw;
      while gap > MAX_GAP
        invariant gap > 0.0 && HalvedToRange(gap) == HalvedToRange(raw)
        decreases (gap / 0.44).Floor
      {
        gap := gap * 0.5;
      }
      while gap < MIN_GAP
        invariant gap > 0.0 && DoubledToRange(gap) == Folded(raw)
        decreases (MIN_GAP / gap).Floor
      {
        DoublingShrinks(gap);
        gap := gap * 2.0;
      }
    }

    method OnFrame(f: Frame) returns (hit: bool)
      requires Valid() && Decays(f)
      modifies this
      ensures Valid() && frames == old(frames) + [f]
      ensures hit == Hit(old(View()), f) && View() == Tick(old(View()), f)
      ensures Hits(warmup, frames) == Hits(warmup, old(frames)) + if hit then [f.now] else []
    {
      hide Folded, After, Hits, Decays, Hit, Retuned;
      hit := Track(f);
      frames := frames + [f];
      FramesGrow(warmup, old(frames), f);
    }

    lemma FramesGrow(warmup: real, before: seq<Frame>, f: Frame)
      ensures After(warmup, before + [f]) == Tick(After(warmup, before), f)
      ensures Hits(warmup, before + [f]) == Hits(warmup, before) + if Hit(After(warmup, before), f) then [f.now] else []
    {
      hide Tick, Hit;
      assert (before + [f])[..|before|] == before;
    }

    method Track(f: Frame) returns (hit: bool)
      modifies this`lastHitAt, this`tempoGap, this`tempoConfidence, this`gapHistory, this`primedFrames
      ensures hit == Hit(old(View()), f) && View() == Tick(old(View()), f)
    {
      hide Folded;
      ghost var before := View();
      primedFrames := primedFrames + 1;
      hit := IsHit(f, primedFrames);
      var locked := MIN_GAP <= tempoGap <= MAX_GAP && tempoConfidence > 0.38;
      var assisted := Assisted(Tracker(lastHitAt, tempoGap, tempoConfidence, [], 0, warmupUntil), f);
      tempoConfidence := tempoConfidence * f.decay;
      if !hit {
        return;
      }
      if lastHitAt > 0.0 {
        MinGapAtLeast(before);
        var gap := FoldGap(f.now - lastHitAt);
        if MIN_GAP <= gap <= MAX_GAP {
          var ease := if locked then 0.10 else 0.22;
          tempoGap := if tempoGap != 0.0 then tempoGap * (1.0 - ease) + gap * ease else gap;
          tempoConfidence := Min(1.0, tempoConfidence + (if assisted then 0.04 else 0.18));
          gapHistory := gapHistory + [gap];
          if |gapHistory| > 24 {
            gapHistory := gapHistory[1..];
          }
        }
      }
      lastHitAt := f.now;
    }

    /** Candidate, rhythm gate and minimum gap, in the order `tick` applies them. */
    method IsHit(f: Frame, primed: nat) returns (hit: bool)
      requires primed == primedFrames > 0
      ensures hit == Hit(View().(primedFrames := primed - 1), f)
    {
      hide Strong, Kick, Assisted, InRhythm;
      var t := Tracker(lastHitAt, tempoGap, tempoConfidence, gapHistory, primed - 1, warmupUntil);
      var candidate := Strong(f) || Kick(f) || Assisted(t, f);
      if f.now < warmupUntil || primed < 18 {
        candidate := false;
      }
      hit := candidate && InRhythm(t, f);
      if hit && f.now - lastHitAt < MinGap(t) {
        hit := false;
      }
    }
  }
}
