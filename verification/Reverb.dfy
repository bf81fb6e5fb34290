/**
 The reverb of `voice-service/src/main.rs`: circular buffers that must behave like the textbook comb
 and all-pass recurrences over the whole stream.  Samples are reals.
 */
module Reverb {
  import opened Numbers

  // ---------------------------------------------------------------- the recurrences

  /** b[n] = x[n] + 0.78 b[n - L], zero before the stream begins. */
  ghost function Comb(xs: seq<real>, len: nat, n: int): real
    requires len > 0
    decreases n
  {
    if n < 0 || n >= |xs| then 0.0 else xs[n] + 0.78 * Comb(xs, len, n - len)
  }

  /** s[n]: half the sum of what the two combs put out. */
  ghost function Sum(xs: seq<real>, l0: nat, l1: nat, n: int): real
    requires l0 > 0 && l1 > 0
  {
    0.5 * (Comb(xs, l0, n - l0) + Comb(xs, l1, n - l1))
  }

  /** a[n] = s[n] + 0.5 a[n - La]. */
  ghost function AllPass(xs: seq<real>, l0: nat, l1: nat, la: nat, n: int): real
    requires l0 > 0 && l1 > 0 && la > 0
    decreases n
  {
    if n < 0 || n >= |xs| then 0.0 else Sum(xs, l0, l1, n) + 0.5 * AllPass(xs, l0, l1, la, n - la)
  }

  /** The output: -s[n] + a[n - La]. */
  ghost function Wet(xs: seq<real>, l0: nat, l1: nat, la: nat, n: int): real
    requires l0 > 0 && l1 > 0 && la > 0
  {
    -Sum(xs, l0, l1, n) + AllPass(xs, l0, l1, la, n - la)
  }

  /** The past does not depend on the samples still to come. */
  lemma {:induction false} CombOfPrefix(xs: seq<real>, ys: seq<real>, len: nat, n: int)
    requires len > 0 && xs <= ys && n < |xs|
    ensures Comb(ys, len, n) == Comb(xs, len, n)
    decreases n
  {
    if n >= 0 {
      CombOfPrefix(xs, ys, len, n - len);
    }
  }

  lemma SumOfPrefix(xs: seq<real>, ys: seq<real>, l0: nat, l1: nat, n: int)
    requires l0 > 0 && l1 > 0 && xs <= ys && n <= |xs|
    ensures Sum(ys, l0, l1, n) == Sum(xs, l0, l1, n)
  {
    CombOfPrefix(xs, ys, l0, n - l0);
    CombOfPrefix(xs, ys, l1, n - l1);
  }

  lemma {:induction false} AllPassOfPrefix(xs: seq<real>, ys: seq<real>, l0: nat, l1: nat, la: nat, n: int)
    requires l0 > 0 && l1 > 0 && la > 0 && xs <= ys && n < |xs|
    ensures AllPass(ys, l0, l1, la, n) == AllPass(xs, l0, l1, la, n)
    decreases n
  {
    if n >= 0 {
      SumOfPrefix(xs, ys, l0, l1, n);
      AllPassOfPrefix(xs, ys, l0, l1, la, n - la);
    }
  }

  // ---------------------------------------------------------------- circular positions

  /** Within one turn of the buffer, only the sample a full turn ago shares the slot. */
  lemma SlotsAreDistinct(m: int, n: int, len: nat)
    requires len > 0 && n - len <= m < n
    ensures m % len == n % len <==> m == n - len
  {
    var q, r := n / len, n % len;
    assert n == len * q + r;
    if m >= n - r {
      SlotOf(m, q, m - (n - r), len);
    } else {
      SlotOf(m, q - 1, m - (n - r) + len, len);
    }
  }

  lemma SlotOf(m: int, q: int, r: nat, len: nat)
    requires len > 0 && r < len && m == len * q + r
    ensures m % len == r
  {
    var d := m / len - q;
    assert m == len * (m / len) + m % len;
    assert len * d == r - m % len;
    MultipleIsFar(len, d);
  }

  lemma MultipleIsFar(len: nat, d: int)
    ensures d >= 1 ==> len * d >= len
    ensures d <= -1 ==> len * d <= -1 * len
    ensures d == 0 ==> len * d == 0
  {
  }

  lemma NextSlot(n: nat, len: nat)
    requires len > 0
    ensures (n % len + 1) % len == (n + 1) % len
  {
    var q, r := n / len, n % len;
    assert n == len * q + r;
    if r + 1 < len {
      SlotOf(n + 1, q, r + 1, len);
      SlotOf(r + 1, 0, r + 1, len);
    } else {
      OneMoreTurn(len, q);
      SlotOf(n + 1, q + 1, 0, len);
      SlotOf(r + 1, 1, 0, len);
    }
  }

  lemma OneMoreTurn(len: nat, q: int)
    ensures len * (q + 1) == len * q + len
  {
  }

  /** A comb buffer holds the last turn of b. */
  ghost predicate CombHolds(buf: seq<real>, xs: seq<real>) {
    |buf| > 0 && forall m :: |xs| - |buf| <= m < |xs| ==> buf[m % |buf|] == Comb(xs, |buf|, m)
  }

  ghost predicate AllPassHolds(buf: seq<real>, xs: seq<real>, l0: nat, l1: nat)
    requires l0 > 0 && l1 > 0
  {
    |buf| > 0 && forall m :: |xs| - |buf| <= m < |xs| ==> buf[m % |buf|] == AllPass(xs, l0, l1, |buf|, m)
  }

  /** Writing the slot of the current sample moves the buffer one sample on. */
  lemma CombTurns(buf: seq<real>, xs: seq<real>, x: real)
    requires CombHolds(buf, xs)
    ensures
      var n := |xs|;
      var y := buf[n % |buf|];
      && y == Comb(xs + [x], |buf|, n - |buf|)
      && CombHolds(buf[n % |buf| := x + y * 0.78], xs + [x])
  {
    var n, len, ys := |xs|, |buf|, xs + [x];
    SlotsAreDistinct(n - len, n, len);
    var y := buf[n % len];
    CombOfPrefix(xs, ys, len, n - len);
    var after := buf[n % len := x + y * 0.78];
    forall m | n + 1 - len <= m < n + 1 ensures after[m % len] == Comb(ys, len, m) {
      if m < n {
        SlotsAreDistinct(m, n, len);
        CombOfPrefix(xs, ys, len, m);
      }
    }
  }

  lemma AllPassTurns(buf: seq<real>, xs: seq<real>, x: real, l0: nat, l1: nat)
    requires l0 > 0 && l1 > 0 && AllPassHolds(buf, xs, l0, l1)
    ensures
      var n := |xs|;
      var y := buf[n % |buf|];
      && y == AllPass(xs + [x], l0, l1, |buf|, n - |buf|)
      && AllPassHolds(buf[n % |buf| := Sum(xs + [x], l0, l1, n) + y * 0.5], xs + [x], l0, l1)
  {
    var n, len, ys := |xs|, |buf|, xs + [x];
    SlotsAreDistinct(n - len, n, len);
    var y := buf[n % len];
    AllPassOfPrefix(xs, ys, l0, l1, len, n - len);
    var after := buf[n % len := Sum(ys, l0, l1, n) + y * 0.5];
    forall m | n + 1 - len <= m < n + 1 ensures after[m % len] == AllPass(ys, l0, l1, len, m) {
      if m < n {
        SlotsAreDistinct(m, n, len);
        AllPassOfPrefix(xs, ys, l0, l1, len, m);
      }
    }
  }

  // ---------------------------------------------------------------- bounds

  ghost predicate Within(xs: seq<real>, bound: real) {
    forall i :: 0 <= i < |xs| ==> -bound <= xs[i] <= bound
  }

  lemma {:induction false} CombBounded(xs: seq<real>, len: nat, n: int, bound: real)
    requires len > 0 && bound >= 0.0 && Within(xs, bound)
    ensures -bound / 0.22 <= Comb(xs, len, n) <= bound / 0.22
    decreases n
  {
    if 0 <= n < |xs| {
      CombBounded(xs, len, n - len, bound);
    }
  }

  lemma SumBounded(xs: seq<real>, l0: nat, l1: nat, n: int, bound: real)
    requires l0 > 0 && l1 > 0 && bound >= 0.0 && Within(xs, bound)
    ensures -bound / 0.22 <= Sum(xs, l0, l1, n) <= bound / 0.22
  {
    CombBounded(xs, l0, n - l0, bound);
    CombBounded(xs, l1, n - l1, bound);
  }

  lemma {:induction false} AllPassBounded(xs: seq<real>, l0: nat, l1: nat, la: nat, n: int, bound: real)
    requires l0 > 0 && l1 > 0 && la > 0 && bound >= 0.0 && Within(xs, bound)
    ensures -2.0 * bound / 0.22 <= AllPass(xs, l0, l1, la, n) <= 2.0 * bound / 0.22
    decreases n
  {
    if 0 <= n < |xs| {
      SumBounded(xs, l0, l1, n, bound);
      AllPassBounded(xs, l0, l1, la, n - la, bound);
    }
  }

  /** No input within ±bound makes the wet signal leave ±3·bound/0.22, however long the stream. */
  lemma WetBounded(xs: seq<real>, l0: nat, l1: nat, la: nat, n: int, bound: real)
    requires l0 > 0 && l1 > 0 && la > 0 && bound >= 0.0 && Within(xs, bound)
    ensures -3.0 * bound / 0.22 <= Wet(xs, l0, l1, la, n) <= 3.0 * bound / 0.22
  {
    SumBounded(xs, l0, l1, n, bound);
    AllPassBounded(xs, l0, l1, la, n - la, bound);
  }

  /** The dry and wet parts mixed as `process_stereo` does. */
  function Mixed(dry: real, wet: real, mix: real): real {
    dry * (1.0 - mix) + wet * (mix * 0.28)
  }

  /** The output leaves the dry sample towards 0.28 of the wet one in proportion to the mix. */
  lemma MixLeans(dry: real, wet: real, mix: real)
    ensures Mixed(dry, wet, mix) - dry == mix * (0.28 * wet - dry)
    ensures Mixed(dry, wet, 1.0) == 0.28 * wet
  {
  }

  function Limit(bound: real, mix: real): real {
    bound * ((1.0 - mix) + mix * 0.84 / 0.22)
  }

  predicate Inside(x: real, limit: real) {
    -limit <= x <= limit
  }

  lemma MixBounded(dry: real, wet: real, mix: real, bound: real)
    requires bound >= 0.0 && 0.0 <= mix <= 1.0
    requires -bound <= dry <= bound && -3.0 * bound / 0.22 <= wet <= 3.0 * bound / 0.22
    ensures Inside(Mixed(dry, wet, mix), Limit(bound, mix))
  {
    hide Limit, Inside;
    KeptScaled(dry, mix, bound);
    SentScaled(wet, mix, bound);
    LimitSplits(mix, bound);
    SumWithin(dry * (1.0 - mix), wet * (mix * 0.28), bound * (1.0 - mix), bound * (mix * 0.84 / 0.22));
  }

  lemma SumWithin(a: real, b: real, c: real, d: real)
    requires Inside(a, c) && Inside(b, d)
    ensures Inside(a + b, c + d)
  {
  }

  lemma KeptScaled(dry: real, mix: real, bound: real)
    requires 0.0 <= mix <= 1.0 && -bound <= dry <= bound
    ensures Inside(dry * (1.0 - mix), bound * (1.0 - mix))
  {
    Scaled(dry, bound, 1.0 - mix);
  }

  lemma SentScaled(wet: real, mix: real, bound: real)
    requires 0.0 <= mix && -3.0 * bound / 0.22 <= wet <= 3.0 * bound / 0.22
    ensures Inside(wet * (mix * 0.28), bound * (mix * 0.84 / 0.22))
  {
    assert (3.0 * bound / 0.22 - wet) * (mix * 0.28) >= 0.0;
    assert (3.0 * bound / 0.22 + wet) * (mix * 0.28) >= 0.0;
  }

  lemma LimitSplits(mix: real, bound: real)
    ensures Limit(bound, mix) == bound * (1.0 - mix) + bound * (mix * 0.84 / 0.22)
  {
  }

  lemma Scaled(x: real, bound: real, factor: real)
    requires -bound <= x <= bound && factor >= 0.0
    ensures -(bound * factor) <= x * factor <= bound * factor
  {
  }

  // ---------------------------------------------------------------- superposition

  /** Two streams mixed sample by sample. */
  ghost function Blend(a: real, xs: seq<real>, b: real, ys: seq<real>): seq<real>
    requires |xs| == |ys|
  {
    seq(|xs|, i requires 0 <= i < |xs| => a * xs[i] + b * ys[i])
  }

  lemma {:induction false} CombIsLinear(a: real, xs: seq<real>, b: real, ys: seq<real>, len: nat, n: int)
    requires len > 0 && |xs| == |ys|
    ensures Comb(Blend(a, xs, b, ys), len, n) == a * Comb(xs, len, n) + b * Comb(ys, len, n)
    decreases n
  {
    if 0 <= n < |xs| {
      CombIsLinear(a, xs, b, ys, len, n - len);
      Combine(a, Comb(xs, len, n), xs[n], Comb(xs, len, n - len),
              b, Comb(ys, len, n), ys[n], Comb(ys, len, n - len), 0.78);
    }
  }

  /** One step of a recurrence with feedback `k` on two streams at once. */
  lemma Combine(a: real, p: real, x: real, u: real, b: real, q: real, y: real, v: real, k: real)
    requires p == x + k * u && q == y + k * v
    ensures (a * x + b * y) + k * (a * u + b * v) == a * p + b * q
  {
    Distribute(a, x, u, k);
    Distribute(b, y, v, k);
    Sums(k, a * u, b * v);
  }

  lemma Distribute(a: real, x: real, y: real, k: real)
    ensures a * (x + k * y) == a * x + k * (a * y)
  {
  }

  lemma Sums(a: real, x: real, y: real)
    ensures a * (x + y) == a * x + a * y
  {
  }

  lemma SumIsLinear(a: real, xs: seq<real>, b: real, ys: seq<real>, l0: nat, l1: nat, n: int)
    requires l0 > 0 && l1 > 0 && |xs| == |ys|
    ensures Sum(Blend(a, xs, b, ys), l0, l1, n) == a * Sum(xs, l0, l1, n) + b * Sum(ys, l0, l1, n)
  {
    hide Comb, Blend;
    CombIsLinear(a, xs, b, ys, l0, n - l0);
    CombIsLinear(a, xs, b, ys, l1, n - l1);
    var x0, x1 := Comb(xs, l0, n - l0), Comb(xs, l1, n - l1);
    var y0, y1 := Comb(ys, l0, n - l0), Comb(ys, l1, n - l1);
    Halved(a, x0, x1);
    Halved(b, y0, y1);
  }

  lemma Halved(a: real, x: real, y: real)
    ensures a * (0.5 * (x + y)) == 0.5 * (a * x + a * y)
  {
    Sums(a, 0.5 * x, 0.5 * y);
  }

  lemma BlendSize(a: real, xs: seq<real>, b: real, ys: seq<real>)
    requires |xs| == |ys|
    ensures |Blend(a, xs, b, ys)| == |xs|
  {
  }

  lemma {:induction false} AllPassIsLinear(a: real, xs: seq<real>, b: real, ys: seq<real>, l0: nat, l1: nat, la: nat, n: int)
    requires l0 > 0 && l1 > 0 && la > 0 && |xs| == |ys|
    ensures AllPass(Blend(a, xs, b, ys), l0, l1, la, n) == a * AllPass(xs, l0, l1, la, n) + b * AllPass(ys, l0, l1, la, n)
    decreases n
  {
    hide Sum, Blend;
    BlendSize(a, xs, b, ys);
    if 0 <= n < |xs| {
      SumIsLinear(a, xs, b, ys, l0, l1, n);
      AllPassIsLinear(a, xs, b, ys, l0, l1, la, n - la);
      Combine(a, AllPass(xs, l0, l1, la, n), Sum(xs, l0, l1, n), AllPass(xs, l0, l1, la, n - la),
              b, AllPass(ys, l0, l1, la, n), Sum(ys, l0, l1, n), AllPass(ys, l0, l1, la, n - la), 0.5);
    }
  }

  /** The reverb of a blend is the blend of the reverbs. */
  lemma WetIsLinear(a: real, xs: seq<real>, b: real, ys: seq<real>, l0: nat, l1: nat, la: nat, n: int)
    requires l0 > 0 && l1 > 0 && la > 0 && |xs| == |ys|
    ensures Wet(Blend(a, xs, b, ys), l0, l1, la, n) == a * Wet(xs, l0, l1, la, n) + b * Wet(ys, l0, l1, la, n)
  {
    hide Sum, Blend, AllPass;
    SumIsLinear(a, xs, b, ys, l0, l1, n);
    AllPassIsLinear(a, xs, b, ys, l0, l1, la, n - la);
    Sums(a, -Sum(xs, l0, l1, n), AllPass(xs, l0, l1, la, n - la));
    Sums(b, -Sum(ys, l0, l1, n), AllPass(ys, l0, l1, la, n - la));
  }

  // ---------------------------------------------------------------- the buffers

  /** One pass of the loop over the two combs: reads the slot of a turn ago, rewrites it, moves on. */
  method CombStep(buf: array<real>, idx: nat, x: real, ghost xs: seq<real>) returns (y: real, next: nat)
    requires CombHolds(buf[..], xs) && idx == |xs| % buf.Length
    modifies buf
    ensures y == Comb(xs + [x], buf.Length, |xs| - buf.Length)
    ensures CombHolds(buf[..], xs + [x]) && next == |xs + [x]| % buf.Length
  {
    CombTurns(buf[..], xs, x);
    y := buf[idx];
    buf[idx] := x + y * 0.78;
    NextSlot(|xs|, buf.Length);
    next := (idx + 1) % buf.Length;
  }

  /** The all-pass stage for the comb sum `s`. */
  method AllPassStep(buf: array<real>, idx: nat, s: real, ghost xs: seq<real>, ghost x: real, ghost l0: nat, ghost l1: nat)
    returns (y: real, next: nat)
    requires l0 > 0 && l1 > 0 && AllPassHolds(buf[..], xs, l0, l1) && idx == |xs| % buf.Length
    requires s == Sum(xs + [x], l0, l1, |xs|)
    modifies buf
    ensures y == Wet(xs + [x], l0, l1, buf.Length, |xs|)
    ensures AllPassHolds(buf[..], xs + [x], l0, l1) && next == |xs + [x]| % buf.Length
  {
    AllPassTurns(buf[..], xs, x, l0, l1);
    var b := buf[idx];
    y := -s + b;
    buf[idx] := s + b * 0.5;
    NextSlot(|xs|, buf.Length);
    next := (idx + 1) % buf.Length;
  }

  class ReverbChannel {
    const combBuf0: array<real>
    const combBuf1: array<real>
    const allpassBuf: array<real>
    var combIdx0: nat
    var combIdx1: nat
    var allpassIdx: nat
    ghost var inputs: seq<real>

    /** Separate buffers, each holding the last turn of its recurrence, and indices in range. */
    ghost predicate Valid()
      reads this, combBuf0, combBuf1, allpassBuf
    {
      && combBuf0 != combBuf1 && combBuf0 != allpassBuf && combBuf1 != allpassBuf
      && CombHolds(combBuf0[..], inputs) && combIdx0 == |inputs| % combBuf0.Length
      && CombHolds(combBuf1[..], inputs) && combIdx1 == |inputs| % combBuf1.Length
      && AllPassHolds(allpassBuf[..], inputs, combBuf0.Length, combBuf1.Length)
      && allpassIdx == |inputs| % allpassBuf.Length
    }

    /** What the channel has just put out. */
    ghost function Output(): real
      requires combBuf0.Length > 0 && combBuf1.Length > 0 && allpassBuf.Length > 0
      reads this
    {
      Wet(inputs, combBuf0.Length, combBuf1.Length, allpassBuf.Length, |inputs| - 1)
    }

    constructor (combLen0: nat, combLen1: nat, allpassLen: nat)
      requires combLen0 > 0 && combLen1 > 0 && allpassLen > 0
      ensures Valid() && inputs == []
      ensures fresh(combBuf0) && fresh(combBuf1) && fresh(allpassBuf)
      ensures combBuf0.Length == combLen0 && combBuf1.Length == combLen1 && allpassBuf.Length == allpassLen
    {
      combBuf0 := new real[combLen0](_ => 0.0);
      combBuf1 := new real[combLen1](_ => 0.0);
      allpassBuf := new real[allpassLen](_ => 0.0);
      combIdx0, combIdx1, allpassIdx := 0, 0, 0;
      inputs := [];
    }

    /** One sample in, one wet sample out: the recurrences at the next instant. */
    method Process(x: real) returns (wet: real)
      requires Valid()
      modifies this, combBuf0, combBuf1, allpassBuf
      ensures Valid() && inputs == old(inputs) + [x]
      ensures wet == Output()
    {
      hide CombHolds, AllPassHolds, Comb;
      var y0, next0 := CombStep(combBuf0, combIdx0, x, inputs);
      var y1, next1 := CombStep(combBuf1, combIdx1, x, inputs);
      var s := 0.5 * (y0 + y1);
      var next;
      wet, next := AllPassStep(allpassBuf, allpassIdx, s, inputs, x, combBuf0.Length, combBuf1.Length);
      combIdx0, combIdx1, allpassIdx := next0, next1, next;
      inputs := inputs + [x];
    }
  }

  class SimpleReverb {
    const l: ReverbChannel
    const r: ReverbChannel

    /** Both channels are consistent and share no buffer. */
    ghost predicate Valid()
      reads this, l, r, l.combBuf0, l.combBuf1, l.allpassBuf, r.combBuf0, r.combBuf1, r.allpassBuf
    {
      l.Valid() && r.Valid() && l != r
      && {l.combBuf0, l.combBuf1, l.allpassBuf} !! {r.combBuf0, r.combBuf1, r.allpassBuf}
    }

    constructor ()
      ensures Valid() && l.inputs == [] && r.inputs == []
      ensures l.combBuf0.Length == 1487 && l.combBuf1.Length == 1601 && l.allpassBuf.Length == 556
      ensures r.combBuf0.Length == 1559 && r.combBuf1.Length == 1699 && r.allpassBuf.Length == 579
    {
      l := new ReverbChannel(1487, 1601, 556);
      r := new ReverbChannel(1559, 1699, 579);
    }

    /** A negligible mix bypasses the filters, which then do not see the sample at all. */
    method ProcessStereo(inL: real, inR: real, mix: real) returns (outL: real, outR: real)
      requires Valid()
      modifies l, r, l.combBuf0, l.combBuf1, l.allpassBuf, r.combBuf0, r.combBuf1, r.allpassBuf
      ensures Valid()
      ensures mix <= 0.0001 ==> outL == inL && outR == inR && l.inputs == old(l.inputs) && r.inputs == old(r.inputs)
      ensures mix > 0.0001 ==>
        var m := Clamp01(mix);
        && l.inputs == old(l.inputs) + [inL] && r.inputs == old(r.inputs) + [inR]
        && outL - inL == m * (0.28 * l.Output() - inL) && outR - inR == m * (0.28 * r.Output() - inR)
        && outL == Mixed(inL, l.Output(), m) && outR == Mixed(inR, r.Output(), m)
    {
      hide CombHolds, AllPassHolds, Wet, Mixed, Clamp01;
      if mix <= 0.0001 {
        return inL, inR;
      }
      var m := Clamp01(mix);
      var wetL := l.Process(inL);
      var wetR := r.Process(inR);
      outL, outR := Mixed(inL, wetL, m), Mixed(inR, wetR, m);
      MixLeans(inL, wetL, m);
      MixLeans(inR, wetR, m);
    }
  }

  /** The mixed output of either channel, for any stream within ±bound. */
  lemma MixedOutputBounded(xs: seq<real>, l0: nat, l1: nat, la: nat, mix: real, bound: real)
    requires l0 > 0 && l1 > 0 && la > 0 && xs != [] && 0.0 <= mix <= 1.0 && bound >= 0.0 && Within(xs, bound)
    ensures
      var n := |xs| - 1;
      -Limit(bound, mix) <= Mixed(xs[n], Wet(xs, l0, l1, la, n), mix) <= Limit(bound, mix)
  {
    hide Wet, Mixed, Limit;
    var n := |xs| - 1;
    WetBounded(xs, l0, l1, la, n, bound);
    MixBounded(xs[n], Wet(xs, l0, l1, la, n), mix, bound);
  }
}
