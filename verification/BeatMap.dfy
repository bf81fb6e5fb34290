/**
 The beat grid `buildBeatMap` of `web/src/core/OfflineBeatAnalyzer.js` lays over onset candidates.
 Times are reals; the onset threshold, the gate and power of a candidate and the kick level of a grid
 position are arbitrary inputs, because the ordering of the result must not depend on them.
 */
module BeatMap {
  import opened Collections
  import opened Numbers

  datatype Candidate = Candidate(frame: nat, time: real, power: real)
  datatype Beat = Beat(time: real, sectionEnergy: real)

  // ---------------------------------------------------------------- candidates

  /** How far a peak may lie before and after the frame whose onset triggered it. */
  const BACK := 2
  const AHEAD := 3

  /** Neighbouring candidates are at least `gap` frames apart. */
  ghost predicate Spaced(c: seq<Candidate>, gap: int) {
    forall i :: 0 <= i < |c| - 1 ==> c[i + 1].frame - c[i].frame >= gap
  }

  ghost predicate OnTime(c: seq<Candidate>, hop: real) {
    forall i :: 0 <= i < |c| ==> c[i].time == c[i].frame as real * hop
  }

  /** The strongest frame from two before to three after the trigger. */
  method PeakNear(onset: seq<real>, low: seq<real>, f: nat) returns (peak: nat)
    requires |onset| == |low| && BACK <= f && f + AHEAD < |onset|
    ensures IsPeak(onset, low, f, peak)
  {
    peak := f;
    var score := onset[f] + low[f] * 0.10;
    var pf := f - BACK;
    while pf <= f + AHEAD
      invariant f - BACK <= pf <= f + AHEAD + 1
      invariant f - BACK <= peak <= f + AHEAD && score == onset[peak] + low[peak] * 0.10
      invariant score >= onset[f] + low[f] * 0.10
      invariant forall k :: f - BACK <= k < pf ==> onset[k] + low[k] * 0.10 <= score
    {
      var here := onset[pf] + low[pf] * 0.10;
      if here > score {
        score := here;
        peak := pf;
      }
      pf := pf + 1;
    }
  }

  /** Frames that must lie between neighbours once a stronger peak may have replaced the later one. */
  function Room(minFrameGap: nat): int {
    minFrameGap - BACK - AHEAD + 1
  }

  /** The list while frame `f` is next; `pushedAt` is the frame that triggered the last push. */
  ghost predicate ListOk(c: seq<Candidate>, pushedAt: nat, f: nat, minFrameGap: nat, hop: real) {
    && Spaced(c, Room(minFrameGap)) && OnTime(c, hop)
    && (c != [] ==> pushedAt < f && c[|c| - 1].frame <= f - 1 + AHEAD)
    && (|c| > 1 ==> pushedAt - c[|c| - 2].frame >= minFrameGap - AHEAD)
  }

  /** A stronger candidate too close to the last one takes its place; a weaker one is dropped. */
  function Admit(c: seq<Candidate>, x: Candidate, minFrameGap: nat): seq<Candidate> {
    if c != [] && x.frame - c[|c| - 1].frame < minFrameGap then
      if x.power > c[|c| - 1].power then c[|c| - 1 := x] else c
    else c + [x]
  }

  lemma AdmitOnTime(c: seq<Candidate>, x: Candidate, minFrameGap: nat, hop: real)
    requires OnTime(c, hop) && OnTime([x], hop)
    ensures OnTime(Admit(c, x, minFrameGap), hop)
  {
    assert [x][0] == x;
  }

  lemma ReplaceSpaced(c: seq<Candidate>, x: Candidate, gap: int)
    requires Spaced(c, gap) && c != [] && (|c| > 1 ==> x.frame - c[|c| - 2].frame >= gap)
    ensures Spaced(c[|c| - 1 := x], gap)
  {
  }

  lemma PushSpaced(c: seq<Candidate>, x: Candidate, gap: int)
    requires Spaced(c, gap) && (c != [] ==> x.frame - c[|c| - 1].frame >= gap)
    ensures Spaced(c + [x], gap)
  {
  }

  lemma AdmitKeepsList(c: seq<Candidate>, pushedAt: nat, f: nat, x: Candidate, minFrameGap: nat, hop: real)
    requires ListOk(c, pushedAt, f, minFrameGap, hop) && minFrameGap >= 18
    requires f - BACK <= x.frame <= f + AHEAD && OnTime([x], hop)
    ensures ListOk(Admit(c, x, minFrameGap),
                   if |Admit(c, x, minFrameGap)| > |c| then f else pushedAt, f + 1, minFrameGap, hop)
  {
    hide Spaced, OnTime;
    AdmitOnTime(c, x, minFrameGap, hop);
    if c != [] && x.frame - c[|c| - 1].frame < minFrameGap {
      ReplaceSpaced(c, x, Room(minFrameGap));
    } else {
      PushSpaced(c, x, Room(minFrameGap));
    }
  }

  // What the onset curve decides: which frames trigger a candidate, and where its peak may lie.

  predicate Triggers(onset: seq<real>, threshold: seq<real>, gate: seq<bool>, f: nat)
    requires 0 < f && f + 1 < |onset| && |threshold| == |gate| == |onset|
  {
    onset[f] > threshold[f] && onset[f] >= onset[f - 1] && onset[f] > onset[f + 1] && gate[f]
  }

  /** The frames inspected before frame `upTo`. */
  predicate Inspected(onset: seq<real>, winN: nat, upTo: int, f: nat) {
    winN + 4 <= f < upTo && f < |onset| - 4
  }

  ghost predicate IsPeak(onset: seq<real>, low: seq<real>, f: nat, peak: nat)
    requires |onset| == |low| && BACK <= f && f + AHEAD < |onset|
  {
    && f - BACK <= peak <= f + AHEAD
    && forall k :: f - BACK <= k <= f + AHEAD ==> onset[k] + low[k] * 0.10 <= onset[peak] + low[peak] * 0.10
  }

  /** Candidate `x` is the peak of a frame that triggered before `upTo`, with the power found there. */
  ghost predicate FromTrigger(onset: seq<real>, low: seq<real>, threshold: seq<real>, gate: seq<bool>, power: seq<real>,
                              winN: nat, upTo: int, x: Candidate)
    requires |low| == |threshold| == |gate| == |power| == |onset|
  {
    exists f: nat :: Inspected(onset, winN, upTo, f) && Triggers(onset, threshold, gate, f)
      && IsPeak(onset, low, f, x.frame) && x.power == power[f]
  }

  ghost predicate AllFromTriggers(onset: seq<real>, low: seq<real>, threshold: seq<real>, gate: seq<bool>, power: seq<real>,
                                  winN: nat, upTo: int, c: seq<Candidate>)
    requires |low| == |threshold| == |gate| == |power| == |onset|
  {
    forall i :: 0 <= i < |c| ==> FromTrigger(onset, low, threshold, gate, power, winN, upTo, c[i])
  }

  /** Some candidate is at least as powerful as `p`. */
  ghost predicate Matched(c: seq<Candidate>, p: real) {
    exists i :: 0 <= i < |c| && c[i].power >= p
  }

  /** Every frame that triggered before `upTo` is matched. */
  ghost predicate AllMatched(onset: seq<real>, threshold: seq<real>, gate: seq<bool>, power: seq<real>,
                             winN: nat, upTo: int, c: seq<Candidate>)
    requires |threshold| == |gate| == |power| == |onset|
  {
    forall f: nat :: Inspected(onset, winN, upTo, f) && Triggers(onset, threshold, gate, f) ==> Matched(c, power[f])
  }

  /** Admitting a candidate loses no power. */
  lemma AdmitMatches(c: seq<Candidate>, x: Candidate, minFrameGap: nat, p: real)
    requires Matched(c, p) || p <= x.power
    ensures Matched(Admit(c, x, minFrameGap), p)
  {
    var after := Admit(c, x, minFrameGap);
    if Matched(c, p) {
      var i :| 0 <= i < |c| && c[i].power >= p;
      assert after[i].power >= p;
    } else {
      assert after[|after| - 1].power >= p;
    }
  }

  lemma AdmitMember(c: seq<Candidate>, x: Candidate, minFrameGap: nat, i: nat)
    requires i < |Admit(c, x, minFrameGap)|
    ensures Admit(c, x, minFrameGap)[i] == x || (i < |c| && Admit(c, x, minFrameGap)[i] == c[i])
  {
  }

  /** The frame just inspected yields candidate `x`: the bookkeeping of one turn of the onset loop. */
  lemma TriggerAdmitted(onset: seq<real>, low: seq<real>, threshold: seq<real>, gate: seq<bool>, power: seq<real>,
                        winN: nat, f: nat, c: seq<Candidate>, x: Candidate, minFrameGap: nat)
    requires |low| == |threshold| == |gate| == |power| == |onset|
    requires Inspected(onset, winN, f + 1, f) && Triggers(onset, threshold, gate, f)
    requires IsPeak(onset, low, f, x.frame) && x.power == power[f]
    requires AllFromTriggers(onset, low, threshold, gate, power, winN, f, c)
    requires AllMatched(onset, threshold, gate, power, winN, f, c)
    ensures AllFromTriggers(onset, low, threshold, gate, power, winN, f + 1, Admit(c, x, minFrameGap))
    ensures AllMatched(onset, threshold, gate, power, winN, f + 1, Admit(c, x, minFrameGap))
  {
    var after := Admit(c, x, minFrameGap);
    forall i | 0 <= i < |after| ensures FromTrigger(onset, low, threshold, gate, power, winN, f + 1, after[i]) {
      AdmitMember(c, x, minFrameGap, i);
      if after[i] != x {
        StillFromTrigger(onset, low, threshold, gate, power, winN, f, c[i]);
      }
    }
    forall g: nat | Inspected(onset, winN, f + 1, g) && Triggers(onset, threshold, gate, g)
      ensures Matched(after, power[g])
    {
      assert g == f || Inspected(onset, winN, f, g);
      AdmitMatches(c, x, minFrameGap, power[g]);
    }
  }

  lemma StillFromTrigger(onset: seq<real>, low: seq<real>, threshold: seq<real>, gate: seq<bool>, power: seq<real>,
                         winN: nat, upTo: nat, x: Candidate)
    requires |low| == |threshold| == |gate| == |power| == |onset|
    requires FromTrigger(onset, low, threshold, gate, power, winN, upTo, x)
    ensures FromTrigger(onset, low, threshold, gate, power, winN, upTo + 1, x)
  {
    var f: nat :| Inspected(onset, winN, upTo, f) && Triggers(onset, threshold, gate, f)
      && IsPeak(onset, low, f, x.frame) && x.power == power[f];
    assert Inspected(onset, winN, upTo + 1, f);
  }

  lemma NoTrigger(onset: seq<real>, low: seq<real>, threshold: seq<real>, gate: seq<bool>, power: seq<real>,
                  winN: nat, f: nat, c: seq<Candidate>)
    requires |low| == |threshold| == |gate| == |power| == |onset|
    requires 0 < f && f + 1 < |onset| && !Triggers(onset, threshold, gate, f)
    requires AllFromTriggers(onset, low, threshold, gate, power, winN, f, c)
    requires AllMatched(onset, threshold, gate, power, winN, f, c)
    ensures AllFromTriggers(onset, low, threshold, gate, power, winN, f + 1, c)
    ensures AllMatched(onset, threshold, gate, power, winN, f + 1, c)
  {
    forall i | 0 <= i < |c| ensures FromTrigger(onset, low, threshold, gate, power, winN, f + 1, c[i]) {
      StillFromTrigger(onset, low, threshold, gate, power, winN, f, c[i]);
    }
    forall g: nat | Inspected(onset, winN, f + 1, g) && Triggers(onset, threshold, gate, g) ensures Matched(c, power[g]) {
      assert Inspected(onset, winN, f, g);
    }
  }

  /**
   The candidate list. Its members stay apart although a replacement may lie before what it replaces;
   each is the peak of a triggering frame, and no triggering frame is stronger than all of them.
   */
  method FindCandidates(onset: seq<real>, low: seq<real>, threshold: seq<real>, gate: seq<bool>, power: seq<real>,
                        winN: nat, minFrameGap: nat, hop: real) returns (candidates: seq<Candidate>)
    requires |low| == |threshold| == |gate| == |power| == |onset|
    requires minFrameGap >= 18
    ensures Spaced(candidates, Room(minFrameGap)) && OnTime(candidates, hop)
    ensures AllFromTriggers(onset, low, threshold, gate, power, winN, |onset|, candidates)
    ensures AllMatched(onset, threshold, gate, power, winN, |onset|, candidates)
  {
    hide Spaced, OnTime, AllFromTriggers, AllMatched, IsPeak, FromTrigger, Matched;
    candidates := [];
    ghost var pushedAt := 0;
    var f := winN + 4;
    NothingFound(minFrameGap, hop);
    NothingInspected(onset, low, threshold, gate, power, winN);
    while f < |onset| - 4
      invariant f >= winN + 4 && ListOk(candidates, pushedAt, f, minFrameGap, hop)
      invariant AllFromTriggers(onset, low, threshold, gate, power, winN, f, candidates)
      invariant AllMatched(onset, threshold, gate, power, winN, f, candidates)
      decreases |onset| - f
    {
      var o := onset[f];
      ghost var was := candidates;
      if o > threshold[f] && o >= onset[f - 1] && o > onset[f + 1] {
        var peak := PeakNear(onset, low, f);
        if gate[f] {
          var candidate := Candidate(peak, peak as real * hop, power[f]);
          OneOnTime(candidate, hop);
          AdmitKeepsList(candidates, pushedAt, f, candidate, minFrameGap, hop);
          TriggerAdmitted(onset, low, threshold, gate, power, winN, f, candidates, candidate, minFrameGap);
          candidates := Admit(candidates, candidate, minFrameGap);
          pushedAt := if |candidates| > |was| then f else pushedAt;
        }
      }
      if !Triggers(onset, threshold, gate, f) {
        NoTrigger(onset, low, threshold, gate, power, winN, f, was);
      }
      f := f + 1;
    }
    AllInspected(onset, low, threshold, gate, power, winN, f, candidates);
  }

  lemma NothingInspected(onset: seq<real>, low: seq<real>, threshold: seq<real>, gate: seq<bool>, power: seq<real>, winN: nat)
    requires |low| == |threshold| == |gate| == |power| == |onset|
    ensures AllFromTriggers(onset, low, threshold, gate, power, winN, winN + 4, [])
    ensures AllMatched(onset, threshold, gate, power, winN, winN + 4, [])
  {
  }

  /** Past the last inspected frame the bound no longer matters. */
  lemma AllInspected(onset: seq<real>, low: seq<real>, threshold: seq<real>, gate: seq<bool>, power: seq<real>,
                     winN: nat, f: nat, c: seq<Candidate>)
    requires |low| == |threshold| == |gate| == |power| == |onset| && f >= |onset| - 4
    requires AllFromTriggers(onset, low, threshold, gate, power, winN, f, c)
    requires AllMatched(onset, threshold, gate, power, winN, f, c)
    ensures AllFromTriggers(onset, low, threshold, gate, power, winN, |onset|, c)
    ensures AllMatched(onset, threshold, gate, power, winN, |onset|, c)
  {
    forall i | 0 <= i < |c| ensures FromTrigger(onset, low, threshold, gate, power, winN, |onset|, c[i]) {
      assert FromTrigger(onset, low, threshold, gate, power, winN, f, c[i]);
      var g: nat :| Inspected(onset, winN, f, g) && Triggers(onset, threshold, gate, g)
        && IsPeak(onset, low, g, c[i].frame) && c[i].power == power[g];
      assert Inspected(onset, winN, |onset|, g);
    }
    forall g: nat | Inspected(onset, winN, |onset|, g) && Triggers(onset, threshold, gate, g) ensures Matched(c, power[g]) {
      assert Inspected(onset, winN, f, g);
    }
  }

  /** Whether any frame triggers at all. */
  ghost predicate AnyTrigger(onset: seq<real>, threshold: seq<real>, gate: seq<bool>, winN: nat)
    requires |threshold| == |gate| == |onset|
  {
    exists f: nat :: Inspected(onset, winN, |onset|, f) && Triggers(onset, threshold, gate, f)
  }

  lemma FoundIffTriggered(onset: seq<real>, low: seq<real>, threshold: seq<real>, gate: seq<bool>, power: seq<real>,
                          winN: nat, c: seq<Candidate>)
    requires |low| == |threshold| == |gate| == |power| == |onset|
    requires AllFromTriggers(onset, low, threshold, gate, power, winN, |onset|, c)
    requires AllMatched(onset, threshold, gate, power, winN, |onset|, c)
    ensures c != [] <==> AnyTrigger(onset, threshold, gate, winN)
  {
    if c != [] {
      assert FromTrigger(onset, low, threshold, gate, power, winN, |onset|, c[0]);
    }
    if AnyTrigger(onset, threshold, gate, winN) {
      var f: nat :| Inspected(onset, winN, |onset|, f) && Triggers(onset, threshold, gate, f);
      assert Matched(c, power[f]);
    }
  }

  lemma OneOnTime(x: Candidate, hop: real)
    requires x.time == x.frame as real * hop
    ensures OnTime([x], hop)
  {
  }

  lemma NothingFound(minFrameGap: nat, hop: real)
    ensures Spaced([], Room(minFrameGap)) && OnTime([], hop)
  {
  }

  /** Later candidates have strictly later times. */
  ghost predicate InTimeOrder(c: seq<Candidate>) {
    forall i, j :: 0 <= i < j < |c| ==> c[i].time < c[j].time
  }

  lemma {:induction false} SpacedFrames(c: seq<Candidate>, gap: int, i: nat, j: nat)
    requires Spaced(c, gap) && gap > 0 && i < j < |c|
    ensures c[i].frame + gap <= c[j].frame
  {
    if i + 1 < j {
      SpacedFrames(c, gap, i, j - 1);
      assert c[j - 1 + 1].frame - c[j - 1].frame >= gap;
    }
  }

  lemma Later(a: nat, b: nat, hop: real)
    requires a < b && hop > 0.0
    ensures a as real * hop < b as real * hop
  {
  }

  lemma CandidatesInTimeOrder(c: seq<Candidate>, gap: int, hop: real)
    requires Spaced(c, gap) && gap > 0 && OnTime(c, hop) && hop > 0.0
    ensures InTimeOrder(c)
  {
    forall i, j | 0 <= i < j < |c| ensures c[i].time < c[j].time {
      SpacedFrames(c, gap, i, j);
      Later(c[i].frame, c[j].frame, hop);
    }
  }

  // ---------------------------------------------------------------- the nearest candidate

  predicate InWindow(c: Candidate, center: real, window: real) {
    center - window <= c.time <= center + window
  }

  function Score(c: Candidate, center: real, window: real): real
    requires window > 0.0
  {
    c.power * (1.0 - Abs(c.time - center) / Max(0.001, window) * 0.42)
  }

  /** The first best-scoring of all candidates in the window, wherever the list is entered. */
  ghost predicate IsNearest(c: seq<Candidate>, center: real, window: real, r: Option<nat>)
    requires window > 0.0
  {
    match r
    case None => forall i :: 0 <= i < |c| ==> !InWindow(c[i], center, window)
    case Some(k) =>
      && k < |c| && InWindow(c[k], center, window)
      && forall i :: 0 <= i < |c| && InWindow(c[i], center, window) ==>
           Score(c[i], center, window) <= Score(c[k], center, window)
           && (i < k ==> Score(c[i], center, window) < Score(c[k], center, window))
  }

  function Off(c: Candidate, center: real): real {
    Abs(c.time - center)
  }

  /**
   What makes `k` preferable to another candidate `i` of the window: never weaker at the same distance, nor
   farther away at the same positive power; stronger if it is farther; and never weaker than 0.58 of it.
   */
  ghost predicate Preferred(c: seq<Candidate>, center: real, k: nat, i: nat)
    requires k < |c| && i < |c|
  {
    && (Off(c[i], center) == Off(c[k], center) ==> c[i].power <= c[k].power && (c[i].power == c[k].power ==> k <= i))
    && (c[i].power == c[k].power > 0.0 ==> Off(c[k], center) <= Off(c[i], center))
    && (c[i].power > 0.0 && Off(c[i], center) < Off(c[k], center) ==> c[i].power < c[k].power)
    && (c[i].power > 0.0 ==> 0.58 * c[i].power <= c[k].power)
  }

  /** A candidate of the window that is preferable to every other one, if there is any in it. */
  ghost predicate IsPreferred(c: seq<Candidate>, center: real, window: real, r: Option<nat>) {
    match r
    case None => forall i :: 0 <= i < |c| ==> !InWindow(c[i], center, window)
    case Some(k) =>
      && k < |c| && InWindow(c[k], center, window)
      && forall i :: 0 <= i < |c| && InWindow(c[i], center, window) ==> Preferred(c, center, k, i)
  }

  /** By how much distance discounts power. */
  function Discount(off: real, window: real): real
    requires window > 0.0
  {
    1.0 - off / Max(0.001, window) * 0.42
  }

  lemma DiscountRange(off: real, window: real)
    requires window > 0.0 && 0.0 <= off <= window
    ensures 0.58 <= Discount(off, window) <= 1.0
  {
    PartOfScale(off, Max(0.001, window));
  }

  lemma PartOfScale(off: real, scale: real)
    requires 0.0 <= off <= scale && scale > 0.0
    ensures 0.0 <= off / scale <= 1.0
  {
    assert off == off / scale * scale;
  }

  lemma DiscountFalls(near: real, far: real, window: real)
    requires window > 0.0 && near < far
    ensures Discount(near, window) > Discount(far, window)
  {
    var scale := Max(0.001, window);
    assert near / scale < far / scale;
  }

  /** A product, kept folded in the proofs that only compare products. */
  function Times(a: real, b: real): real {
    a * b
  }

  lemma Weighed(p: real, f: real, q: real, g: real)
    requires Times(p, f) <= Times(q, g) && 0.58 <= f <= 1.0 && 0.58 <= g <= 1.0
    ensures f == g ==> p <= q
    ensures p > 0.0 ==> 0.58 * p <= q
    ensures p > 0.0 && f > g ==> p < q
  {
    hide Times;
    if p > 0.0 {
      AtLeast(p, f);
      AtMost(q, g);
      if f > g && p >= q {
        LessWeight(q, g, f);
        LessPower(q, p, f);
      }
    }
    if f == g && p > q {
      MorePower(q, p, f);
    }
  }

  lemma AtLeast(p: real, f: real)
    requires p > 0.0 && f >= 0.58
    ensures Times(p, f) >= 0.58 * p
  {
  }

  lemma AtMost(q: real, g: real)
    requires Times(q, g) > 0.0 && 0.0 < g <= 1.0
    ensures q > 0.0 && Times(q, g) <= q
  {
    assert q > 0.0;
  }

  lemma LessWeight(q: real, g: real, f: real)
    requires q > 0.0 && g < f
    ensures Times(q, g) < Times(q, f)
  {
  }

  lemma LessPower(q: real, p: real, f: real)
    requires q <= p && f > 0.0
    ensures Times(q, f) <= Times(p, f)
  {
  }

  lemma MorePower(q: real, p: real, f: real)
    requires q < p && f > 0.0
    ensures Times(q, f) < Times(p, f)
  {
  }

  /** What ranks best is preferable, whatever the numbers. */
  lemma NearestIsPreferred(c: seq<Candidate>, center: real, window: real, r: Option<nat>)
    requires window > 0.0 && IsNearest(c, center, window, r)
    ensures IsPreferred(c, center, window, r)
  {
    hide Score, InWindow;
    if r.Some? {
      var k := r.value;
      forall i | 0 <= i < |c| && InWindow(c[i], center, window) ensures Preferred(c, center, k, i) {
        RankedIsPreferred(c, center, window, k, i);
      }
    }
  }

  lemma RankedIsPreferred(c: seq<Candidate>, center: real, window: real, k: nat, i: nat)
    requires window > 0.0 && k < |c| && i < |c| && InWindow(c[k], center, window) && InWindow(c[i], center, window)
    requires Score(c[i], center, window) <= Score(c[k], center, window)
    requires i < k ==> Score(c[i], center, window) < Score(c[k], center, window)
    ensures Preferred(c, center, k, i)
  {
    var p, q, near, far := c[i].power, c[k].power, Off(c[i], center), Off(c[k], center);
    assert Score(c[i], center, window) == Times(p, Discount(near, window));
    assert Score(c[k], center, window) == Times(q, Discount(far, window));
    hide Discount, Score, Times;
    DiscountRange(near, window);
    DiscountRange(far, window);
    Weighed(p, Discount(near, window), q, Discount(far, window));
    if near < far {
      DiscountFalls(near, far, window);
    }
  }

  /** Entering at a cursor is right as long as nothing before it reaches into the window. */
  method NearestCandidate(c: seq<Candidate>, center: real, window: real, start: nat) returns (best: Option<nat>)
    requires InTimeOrder(c) && window > 0.0 && start <= |c|
    requires forall i :: 0 <= i < start ==> c[i].time < center - window
    ensures IsNearest(c, center, window, best) && IsPreferred(c, center, window, best)
  {
    hide Score, Preferred;
    best := None;
    var j := start;
    while j < |c| && c[j].time < center - window
      invariant start <= j <= |c|
      invariant forall i :: 0 <= i < j ==> c[i].time < center - window
    {
      j := j + 1;
    }
    var n := j;
    while n < |c| && c[n].time <= center + window
      invariant j <= n <= |c|
      invariant forall i :: j <= i < n ==> InWindow(c[i], center, window)
      invariant best.None? ==> n == j
      invariant best.Some? ==> j <= best.value < n
      invariant best.Some? ==> forall i :: j <= i < n ==>
        Score(c[i], center, window) <= Score(c[best.value], center, window)
        && (i < best.value ==> Score(c[i], center, window) < Score(c[best.value], center, window))
    {
      if best.None? || Score(c[n], center, window) > Score(c[best.value], center, window) {
        best := Some(n);
      }
      n := n + 1;
    }
    if n < |c| {
      forall i | n <= i < |c| ensures !InWindow(c[i], center, window) {
        assert c[n].time <= c[i].time;
      }
    }
    NearestIsPreferred(c, center, window, best);
  }

  // ---------------------------------------------------------------- the grid

  const MIN_STEP := 0.32
  const MAX_STEP := 0.86

  function Window(step: real): real {
    Max(0.060, Min(0.135, step * 0.20))
  }

  /** How strongly a candidate pulls a beat off its grid position. */
  function Pull(kickRel: real): real {
    0.24 + Clamp01((kickRel - 0.25) / 0.65) * 0.46
  }

  lemma WindowSize(step: real)
    requires MIN_STEP <= step <= MAX_STEP
    ensures 0.0 < Window(step) <= step * 0.20
    ensures Window(step) == if step <= 0.675 then step * 0.20 else 0.135
  {
  }

  /** A stronger kick pulls more, from 0.24 of the way up to 0.70 of it. */
  lemma PullGrows(kickRel: real, stronger: real)
    requires kickRel <= stronger
    ensures Pull(kickRel) <= Pull(stronger)
    ensures kickRel <= 0.25 ==> Pull(kickRel) == 0.24
    ensures stronger >= 0.90 ==> Pull(stronger) == 0.70
    ensures 0.25 <= kickRel < stronger <= 0.90 ==> Pull(kickRel) < Pull(stronger)
  {
  }

  lemma PartOfWay(gridT: real, candidate: real, pull: real)
    ensures BeatTime(gridT, Some(candidate), pull) == gridT + Times(pull, candidate - gridT)
  {
  }

  lemma PartOf(pull: real, off: real)
    requires 0.24 <= pull <= 0.70
    ensures off >= 0.0 ==> 0.24 * off <= Times(pull, off) <= 0.70 * off
    ensures off <= 0.0 ==> 0.70 * off <= Times(pull, off) <= 0.24 * off
  {
  }

  /** A beat goes that part of the way from its grid position to the candidate. */
  lemma BeatLeans(gridT: real, candidate: real, pull: real)
    requires 0.24 <= pull <= 0.70
    ensures Between(gridT, BeatTime(gridT, Some(candidate), pull), candidate)
  {
    hide BeatTime, Times;
    PartOfWay(gridT, candidate, pull);
    PartOf(pull, candidate - gridT);
  }

  /** Where a beat may be: on the grid if no candidate is near, else part of the way to a preferred one. */
  ghost predicate LeansToPreferred(c: seq<Candidate>, gridT: real, time: real, window: real) {
    if forall i :: 0 <= i < |c| ==> !InWindow(c[i], gridT, window) then time == gridT
    else exists k: nat :: IsPreferred(c, gridT, window, Some(k)) && Between(gridT, time, c[k].time)
  }

  predicate Between(gridT: real, time: real, target: real) {
    && 0.24 * Abs(target - gridT) <= Abs(time - gridT) <= 0.70 * Abs(target - gridT)
    && (gridT <= time <= target || target <= time <= gridT)
  }

  lemma PlacedLeans(c: seq<Candidate>, gridT: real, step: real, best: Option<nat>, kickRel: real)
    requires Window(step) > 0.0 && IsPreferred(c, gridT, Window(step), best)
    ensures LeansToPreferred(c, gridT, BeatTime(gridT, if best.Some? then Some(c[best.value].time) else None, Pull(kickRel)), Window(step))
  {
    hide Preferred, Window;
    PullRange(kickRel);
    if best.Some? {
      BeatLeans(gridT, c[best.value].time, Pull(kickRel));
    }
  }

  /** Where a beat lands: at most 0.14 steps from its grid position. */
  function BeatTime(gridT: real, candidate: Option<real>, pull: real): real {
    if candidate.Some? then gridT * (1.0 - pull) + candidate.value * pull else gridT
  }

  lemma BeatNearGrid(gridT: real, candidate: Option<real>, pull: real, step: real)
    requires MIN_STEP <= step <= MAX_STEP && 0.24 <= pull <= 0.70
    requires candidate.Some? ==> gridT - Window(step) <= candidate.value <= gridT + Window(step)
    ensures -(0.14 * step) <= BeatTime(gridT, candidate, pull) - gridT <= 0.14 * step
  {
    WindowSize(step);
    if candidate.Some? {
      BeatLeans(gridT, candidate.value, pull);
    }
  }

  /** The grid position with index `i`. */
  function GridAt(anchor: real, step: real, i: nat): real {
    anchor + i as real * step
  }

  lemma NextGridPosition(anchor: real, step: real, i: nat)
    ensures GridAt(anchor, step, i + 1) == GridAt(anchor, step, i) + step
    ensures GridAt(anchor - step, step, i + 1) == GridAt(anchor, step, i)
  {
    assert (i + 1) as real * step == i as real * step + step;
  }

  /** Every beat lies within 0.14 steps of its grid position. */
  ghost predicate NearGrid(beats: seq<Beat>, anchor: real, step: real) {
    forall i :: 0 <= i < |beats| ==> -(0.14 * step) <= beats[i].time - GridAt(anchor, step, i) <= 0.14 * step
  }

  /** Consecutive beats are at least 0.72 steps apart. */
  ghost predicate WellSpaced(beats: seq<Beat>, step: real) {
    forall i :: 0 <= i < |beats| - 1 ==> beats[i + 1].time - beats[i].time >= 0.72 * step
  }

  lemma GridGivesGaps(beats: seq<Beat>, anchor: real, step: real)
    requires NearGrid(beats, anchor, step)
    ensures WellSpaced(beats, step)
    ensures forall i :: 0 <= i < |beats| - 1 ==> beats[i + 1].time - beats[i].time <= 1.28 * step
  {
    hide GridAt;
    forall i | 0 <= i < |beats| - 1
      ensures 0.72 * step <= beats[i + 1].time - beats[i].time <= 1.28 * step
    {
      NextGridPosition(anchor, step, i);
    }
  }

  /** Walks the anchor back in whole steps to the first grid position. */
  method FirstGridPosition(anchor: real, step: real) returns (first: real)
    requires MIN_STEP <= step
    ensures exists k: nat :: GridAt(first, step, k) == anchor
    ensures (first == anchor || first > 0.05) && first - step <= 0.05
  {
    hide GridAt;
    first := anchor;
    ghost var k: nat := 0;
    assert GridAt(first, step, k) == anchor by { GridStart(anchor, step); }
    while first - step > 0.05
      invariant GridAt(first, step, k) == anchor
      invariant first == anchor || first > 0.05
      decreases (first / MIN_STEP).Floor
    {
      NextGridPosition(first, step, k);
      first := first - step;
      k := k + 1;
    }
  }

  lemma GridStart(anchor: real, step: real)
    ensures GridAt(anchor, step, 0) == anchor
  {
  }

  /** The beat of one grid position: pulled towards the nearest candidate in the window, if there is one. */
  ghost predicate Placed(candidates: seq<Candidate>, gridT: real, time: real, step: real, kickRel: real)
    requires Window(step) > 0.0
  {
    exists best: Option<nat> :: IsNearest(candidates, gridT, Window(step), best) &&
      time == BeatTime(gridT, if best.Some? then Some(candidates[best.value].time) else None, Pull(kickRel))
  }

  /** One turn of the grid loop; the cursor only ever moves past candidates no later window can reach. */
  method PlaceBeat(candidates: seq<Candidate>, gridT: real, step: real, start: nat, kickRel: real)
    returns (time: real, cursor: nat)
    requires InTimeOrder(candidates) && MIN_STEP <= step <= MAX_STEP && start <= |candidates|
    requires forall i :: 0 <= i < start ==> candidates[i].time < gridT - Window(step)
    ensures start <= cursor <= |candidates|
    ensures forall i :: 0 <= i < cursor ==> candidates[i].time < gridT - Window(step)
    ensures Window(step) > 0.0 && Placed(candidates, gridT, time, step, kickRel)
    ensures -(0.14 * step) <= time - gridT <= 0.14 * step
    ensures LeansToPreferred(candidates, gridT, time, Window(step))
  {
    hide Pull, Score, BeatTime, Preferred, LeansToPreferred;
    var window := Window(step);
    WindowSize(step);
    cursor := start;
    while cursor < |candidates| && candidates[cursor].time < gridT - window
      invariant start <= cursor <= |candidates|
      invariant forall i :: 0 <= i < cursor ==> candidates[i].time < gridT - window
    {
      cursor := cursor + 1;
    }
    var best := NearestCandidate(candidates, gridT, window, cursor);
    var at := if best.Some? then Some(candidates[best.value].time) else None;
    PullRange(kickRel);
    BeatNearGrid(gridT, at, Pull(kickRel), step);
    time := BeatTime(gridT, at, Pull(kickRel));
    PlacedLeans(candidates, gridT, step, best, kickRel);
  }

  /** The grid loop: one placed beat for every grid position before the end of the track, and no other. */
  method LayGrid(candidates: seq<Candidate>, anchor: real, step: real, duration: real, kickRel: nat -> real, section: nat -> real)
    returns (beats: seq<Beat>)
    requires InTimeOrder(candidates) && MIN_STEP <= step <= MAX_STEP && Window(step) > 0.0
    ensures NearGrid(beats, anchor, step)
    ensures Covers(|beats|, anchor, step, duration)
    ensures forall i :: 0 <= i < |beats| ==> Placed(candidates, GridAt(anchor, step, i), beats[i].time, step, kickRel(i))
    ensures forall i :: 0 <= i < |beats| ==> beats[i].sectionEnergy == Clamp01(section(i))
  {
    hide Placed, InTimeOrder, Window, Clamp01, GridAt;
    beats := [];
    var gridT := anchor;
    GridStart(anchor, step);
    var cursor := 0;
    while gridT < duration - 0.04
      invariant NearGrid(beats, anchor, step)
      invariant gridT == GridAt(anchor, step, |beats|)
      invariant forall i: nat :: i < |beats| ==> GridAt(anchor, step, i) < duration - 0.04
      invariant cursor <= |candidates|
      invariant forall i :: 0 <= i < cursor ==> candidates[i].time < gridT - Window(step)
      invariant forall i :: 0 <= i < |beats| ==> Placed(candidates, GridAt(anchor, step, i), beats[i].time, step, kickRel(i))
      invariant forall i :: 0 <= i < |beats| ==> beats[i].sectionEnergy == Clamp01(section(i))
      decreases ((duration - gridT) / MIN_STEP).Floor
    {
      var time;
      time, cursor := PlaceBeat(candidates, gridT, step, cursor, kickRel(|beats|));
      NextGridPosition(anchor, step, |beats|);
      beats := beats + [Beat(time, Clamp01(section(|beats|)))];
      gridT := gridT + step;
    }
  }

  /** `n` is the number of grid positions that lie before the end of the track. */
  ghost predicate Covers(n: nat, anchor: real, step: real, duration: real) {
    && (forall i: nat :: i < n ==> GridAt(anchor, step, i) < duration - 0.04)
    && GridAt(anchor, step, n) >= duration - 0.04
  }

  lemma PullRange(kickRel: real)
    ensures 0.24 <= Pull(kickRel) <= 0.70
  {
  }

  /**
   The whole of `buildBeatMap`: whatever the audio, the beats are in strictly increasing order. There is a
   grid exactly when some frame triggers a candidate; it then covers the track, starting a whole number of
   steps before the anchor, and each beat is pulled towards the nearest candidate.
   */
  method BuildBeatMap(onset: seq<real>, low: seq<real>, threshold: seq<real>, gate: seq<bool>, power: seq<real>,
                      winN: nat, minFrameGap: nat, hop: real, estimate: real, bestAnchor: real, duration: real,
                      kickRel: nat -> real, section: nat -> real)
    returns (beats: seq<Beat>, gridStep: real, ghost candidates: seq<Candidate>, ghost anchor: real)
    requires |low| == |threshold| == |gate| == |power| == |onset|
    requires minFrameGap >= 18 && hop > 0.0
    ensures WellSpaced(beats, gridStep)
    ensures forall i, j :: 0 <= i < j < |beats| ==> beats[i].time < beats[j].time
    ensures if |onset| >= 20 && AnyTrigger(onset, threshold, gate, winN)
            then MIN_STEP <= gridStep <= MAX_STEP && (MIN_STEP <= estimate <= MAX_STEP ==> gridStep == estimate)
            else beats == [] && gridStep == 0.0
    ensures gridStep != 0.0 ==>
      && AllFromTriggers(onset, low, threshold, gate, power, winN, |onset|, candidates)
      && AllMatched(onset, threshold, gate, power, winN, |onset|, candidates)
      && Spaced(candidates, Room(minFrameGap)) && OnTime(candidates, hop)
    ensures gridStep != 0.0 ==>
      && (exists k: nat :: GridAt(anchor, gridStep, k) == bestAnchor)
      && (anchor == bestAnchor || anchor > 0.05) && anchor - gridStep <= 0.05
    ensures gridStep != 0.0 ==>
      && Covers(|beats|, anchor, gridStep, duration) && Window(gridStep) > 0.0
      && forall i :: 0 <= i < |beats| ==>
           Placed(candidates, GridAt(anchor, gridStep, i), beats[i].time, gridStep, kickRel(i))
    ensures forall i :: 0 <= i < |beats| ==> beats[i].sectionEnergy == Clamp01(section(i))
  {
    hide AllFromTriggers, AllMatched, AnyTrigger, Spaced, OnTime, GridAt, Placed, Covers, Clamp01, Window, InTimeOrder, NearGrid;
    beats, gridStep, candidates, anchor := [], 0.0, [], 0.0;
    if |onset| < 20 {
      return;
    }
    var found := FindCandidates(onset, low, threshold, gate, power, winN, minFrameGap, hop);
    candidates := found;
    FoundIffTriggered(onset, low, threshold, gate, power, winN, found);
    if found == [] {
      return;
    }
    CandidatesInTimeOrder(found, Room(minFrameGap), hop);
    gridStep := Clamp(estimate, MIN_STEP, MAX_STEP);
    var first := FirstGridPosition(bestAnchor, gridStep);
    anchor := first;
    WindowSize(gridStep);
    beats := LayGrid(found, first, gridStep, duration, kickRel, section);
    GridGivesGaps(beats, first, gridStep);
    BeatsAscend(beats, gridStep);
  }

  lemma BeatsAscend(beats: seq<Beat>, step: real)
    requires WellSpaced(beats, step) && step > 0.0
    ensures forall i, j :: 0 <= i < j < |beats| ==> beats[i].time < beats[j].time
  {
    forall i, j | 0 <= i < j < |beats| ensures beats[i].time < beats[j].time {
      SpacedBeatsAscend(beats, step, i, j);
    }
  }

  lemma {:induction false} SpacedBeatsAscend(beats: seq<Beat>, step: real, i: nat, j: nat)
    requires WellSpaced(beats, step) && step > 0.0 && i < j < |beats|
    ensures beats[i].time < beats[j].time
  {
    if i + 1 < j {
      SpacedBeatsAscend(beats, step, i, j - 1);
      assert beats[j - 1 + 1].time - beats[j - 1].time >= 0.72 * step;
    } else {
      assert beats[i + 1].time - beats[i].time >= 0.72 * step;
    }
  }
}
