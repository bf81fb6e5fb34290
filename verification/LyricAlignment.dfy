/**
 Timestamp matching of native translations to lyric lines (`backend/lyric_translation.py`).  The set of
 unused translations is iterated in some fixed order, here an arbitrary one, and `min` keeps the first
 minimum it meets.
 */
module LyricAlignment {
  import opened Collections
  import opened Numbers
  import opened Text

  datatype Line = Line(time: real, text: string)

  // ---------------------------------------------------------------- cleaning

  const NOTICES := ["QQ音乐享有本翻译作品的著作权", "QQ音樂享有本翻譯作品的著作權"]

  predicate Contains(text: string, part: string) {
    part <= text || (text != [] && Contains(text[1..], part))
  }

  /** Blank lines, slashes standing for nothing and copyright notices are dropped. */
  function Clean(text: string): string {
    var cleaned := PyStrip(text);
    if cleaned == "" || PyStrip(Filter(c => c != '/', cleaned)) == "" then ""
    else
      var compact := Filter(c => !PySpace(c), cleaned);
      if Contains(compact, NOTICES[0]) || Contains(compact, NOTICES[1]) then "" else cleaned
  }

  // ---------------------------------------------------------------- tolerance and distance

  function Tolerance(lyrics: seq<Line>, i: nat): real
    requires i < |lyrics|
  {
    var previous := if i > 0 then lyrics[i].time - lyrics[i - 1].time else 4.0;
    var next := if i + 1 < |lyrics| then lyrics[i + 1].time - lyrics[i].time else previous;
    var local := Max(0.0, Min(previous, next));
    Max(0.55, Min(1.5, local * 0.35))
  }

  function Distance(translations: seq<Line>, k: nat, time: real): real
    requires k < |translations|
  {
    Abs(translations[k].time - time)
  }

  ghost predicate Indices(order: seq<nat>, n: nat) {
    forall i :: 0 <= i < |order| ==> order[i] < n
  }

  /** The first of the nearest candidates. */
  function Nearest(candidates: seq<nat>, translations: seq<Line>, time: real): (k: nat)
    requires candidates != [] && Indices(candidates, |translations|)
    ensures k in candidates && k < |translations|
  {
    if |candidates| == 1 then candidates[0]
    else
      var k := Nearest(candidates[1..], translations, time);
      if Distance(translations, candidates[0], time) <= Distance(translations, k, time) then candidates[0] else k
  }

  lemma {:induction false} NearestIsLeast(candidates: seq<nat>, translations: seq<Line>, time: real)
    requires candidates != [] && Indices(candidates, |translations|)
    ensures forall i :: 0 <= i < |candidates| ==>
      Distance(translations, Nearest(candidates, translations, time), time) <= Distance(translations, candidates[i], time)
  {
    if |candidates| > 1 {
      NearestIsLeast(candidates[1..], translations, time);
      forall i | 0 <= i < |candidates|
        ensures Distance(translations, Nearest(candidates, translations, time), time) <= Distance(translations, candidates[i], time)
      {
        assert i > 0 ==> candidates[i] == candidates[1..][i - 1];
      }
    }
  }

  // ---------------------------------------------------------------- the greedy matching

  function Unused(order: seq<nat>, used: set<nat>): seq<nat> {
    Filter(k => k !in used, order)
  }

  lemma UnusedFacts(order: seq<nat>, used: set<nat>, n: nat)
    requires Indices(order, n)
    ensures Indices(Unused(order, used), n)
    ensures forall k :: k in Unused(order, used) <==> k in order && k !in used
  {
    FilterMembers(k => k !in used, order);
    forall i | 0 <= i < |Unused(order, used)| ensures Unused(order, used)[i] < n {
      assert Unused(order, used)[i] in order;
    }
  }

  /** The translation line `i` takes while `used` are gone. */
  function Choice(lyrics: seq<Line>, translations: seq<Line>, order: seq<nat>, used: set<nat>, i: nat): (r: Option<nat>)
    requires i < |lyrics| && Indices(order, |translations|)
    ensures r.Some? ==> r.value < |translations|
  {
    UnusedFacts(order, used, |translations|);
    var unused := Unused(order, used);
    if unused == [] then None
    else
      var k := Nearest(unused, translations, lyrics[i].time);
      if Distance(translations, k, lyrics[i].time) > Tolerance(lyrics, i) then None else Some(k)
  }

  function With(used: set<nat>, choice: Option<nat>): set<nat> {
    if choice.Some? then used + {choice.value} else used
  }

  /** What the lines from `i` on take, one after the other. */
  function Greedy(lyrics: seq<Line>, translations: seq<Line>, order: seq<nat>, used: set<nat>, i: nat): (r: seq<Option<nat>>)
    requires i <= |lyrics| && Indices(order, |translations|)
    ensures |r| == |lyrics| - i
    ensures forall k :: 0 <= k < |r| && r[k].Some? ==> r[k].value < |translations|
    decreases |lyrics| - i
  {
    if i == |lyrics| then []
    else
      var choice := Choice(lyrics, translations, order, used, i);
      [choice] + Greedy(lyrics, translations, order, With(used, choice), i + 1)
  }

  /** What a line would take if it were alone. */
  function Alone(lyrics: seq<Line>, translations: seq<Line>, order: seq<nat>, i: nat): Option<nat>
    requires i < |lyrics| && Indices(order, |translations|)
  {
    Choice(lyrics, translations, order, {}, i)
  }

  /** The text shown under a line. */
  function Shown(line: Line, translations: seq<Line>, choice: Option<nat>): string
    requires choice.Some? ==> choice.value < |translations|
  {
    if choice.None? then ""
    else
      var text := Clean(translations[choice.value].text);
      if text != "" && text != PyStrip(line.text) then text else ""
  }

  lemma {:induction false} RemoveUsed(order: seq<nat>, used: set<nat>, k: nat)
    requires NoDuplicates(order) && k in Unused(order, used)
    ensures Remove(Unused(order, used), k) == Unused(order, used + {k})
  {
    var xs := order;
    var ys := Unused(order, used);
    if order[0] in used {
      RemoveUsed(order[1..], used, k);
    } else if order[0] == k {
      assert ys[1..] == Unused(order[1..], used);
      SameUnused(order[1..], used, k);
      assert IndexOf(ys, k) == 0;
    } else {
      assert ys == [order[0]] + Unused(order[1..], used);
      RemoveUsed(order[1..], used, k);
      RemoveLater(order[0], Unused(order[1..], used), k);
    }
  }

  lemma RemoveLater(x: nat, xs: seq<nat>, k: nat)
    requires x != k && k in xs
    ensures Remove([x] + xs, k) == [x] + Remove(xs, k)
  {
    var ys, n := [x] + xs, IndexOf(xs, k);
    assert ys[1..] == xs && IndexOf(ys, k) == 1 + n;
    assert ys[..1 + n] == [x] + xs[..n] && ys[1 + n + 1..] == xs[n + 1..];
    assert [x] + xs[..n] + xs[n + 1..] == [x] + (xs[..n] + xs[n + 1..]);
  }

  lemma {:induction false} SameUnused(order: seq<nat>, used: set<nat>, k: nat)
    requires k !in order
    ensures Unused(order, used) == Unused(order, used + {k})
  {
    if order != [] {
      SameUnused(order[1..], used, k);
    }
  }

  /** What the loop has settled after `i` lines. */
  ghost predicate Settled(lyrics: seq<Line>, translations: seq<Line>, matched: seq<Option<nat>>, aligned: seq<string>, i: nat) {
    && |aligned| == |lyrics| && |matched| == i <= |lyrics|
    && (forall k :: 0 <= k < i && matched[k].Some? ==> matched[k].value < |translations|)
    && (forall k :: 0 <= k < i ==> aligned[k] == Shown(lyrics[k], translations, matched[k]))
    && forall k :: i <= k < |lyrics| ==> aligned[k] == ""
  }

  lemma SettleOne(lyrics: seq<Line>, translations: seq<Line>, matched: seq<Option<nat>>, aligned: seq<string>, i: nat,
                  choice: Option<nat>, after: seq<string>)
    requires Settled(lyrics, translations, matched, aligned, i) && i < |lyrics|
    requires choice.Some? ==> choice.value < |translations|
    requires after == aligned[i := Shown(lyrics[i], translations, choice)]
    ensures Settled(lyrics, translations, matched + [choice], after, i + 1)
  {
    hide Shown;
  }

  lemma SettleRest(lyrics: seq<Line>, translations: seq<Line>, matched: seq<Option<nat>>, aligned: seq<string>, i: nat, rest: seq<Option<nat>>)
    requires Settled(lyrics, translations, matched, aligned, i)
    requires |rest| == |lyrics| - i && forall k :: 0 <= k < |rest| ==> rest[k] == None
    ensures Settled(lyrics, translations, matched + rest, aligned, |lyrics|)
  {
    hide Clean;
  }

  /** `align_native_translations`: the greedy matching, and the texts it leads to. */
  method AlignNativeTranslations(lyrics: seq<Line>, translations: seq<Line>, order: seq<nat>)
    returns (aligned: seq<string>, ghost matched: seq<Option<nat>>)
    requires NoDuplicates(order) && Indices(order, |translations|)
    ensures matched == Greedy(lyrics, translations, order, {}, 0)
    ensures |aligned| == |lyrics|
    ensures forall i :: 0 <= i < |lyrics| ==> aligned[i] == Shown(lyrics[i], translations, matched[i])
  {
    hide Clean, Nearest, Tolerance, Unused, Distance, Settled, PyStrip, Greedy, Remove;
    aligned := seq(|lyrics|, _ => "");
    matched := [];
    assert Settled(lyrics, translations, matched, aligned, 0) by { NothingSettled(lyrics, translations); }
    ghost var used: set<nat> := {};
    var unused := order;
    NothingUsed(order);
    var i := 0;
    while i < |lyrics|
      invariant 0 <= i <= |lyrics| && |aligned| == |lyrics|
      invariant unused == Unused(order, used) && Indices(unused, |translations|)
      invariant matched + Greedy(lyrics, translations, order, used, i) == Greedy(lyrics, translations, order, {}, 0)
      invariant Settled(lyrics, translations, matched, aligned, i)
    {
      UnusedFacts(order, used, |translations|);
      ghost var choice := Choice(lyrics, translations, order, used, i);
      ghost var before := aligned;
      GreedyUnfolds(lyrics, translations, order, used, i, matched);
      if unused == [] {
        NoneLeft(lyrics, translations, order, used, i);
        break;
      }
      var nearest := Nearest(unused, translations, lyrics[i].time);
      if Distance(translations, nearest, lyrics[i].time) <= Tolerance(lyrics, i) {
        RemoveUsed(order, used, nearest);
        unused := Remove(unused, nearest);
        used := used + {nearest};
        UnusedFacts(order, used, |translations|);
        var text := Clean(translations[nearest].text);
        if text != "" && text != PyStrip(lyrics[i].text) {
          aligned := aligned[i := text];
        }
      }
      StillBlank(lyrics, translations, matched, before, i);
      SettleOne(lyrics, translations, matched, before, i, choice, aligned);
      matched := matched + [choice];
      i := i + 1;
    }
    ghost var rest := Greedy(lyrics, translations, order, used, i);
    SettleRest(lyrics, translations, matched, aligned, i, rest);
    matched := matched + rest;
    AllSettled(lyrics, translations, matched, aligned);
  }

  /** One line's turn. */
  lemma GreedyUnfolds(lyrics: seq<Line>, translations: seq<Line>, order: seq<nat>, used: set<nat>, i: nat, matched: seq<Option<nat>>)
    requires i < |lyrics| && Indices(order, |translations|)
    ensures
      var choice := Choice(lyrics, translations, order, used, i);
      matched + Greedy(lyrics, translations, order, used, i)
      == matched + [choice] + Greedy(lyrics, translations, order, With(used, choice), i + 1)
  {
    hide Choice;
  }

  lemma NothingSettled(lyrics: seq<Line>, translations: seq<Line>)
    ensures Settled(lyrics, translations, [], seq(|lyrics|, _ => ""), 0)
  {
  }

  lemma StillBlank(lyrics: seq<Line>, translations: seq<Line>, matched: seq<Option<nat>>, aligned: seq<string>, i: nat)
    requires Settled(lyrics, translations, matched, aligned, i) && i < |lyrics|
    ensures |aligned| == |lyrics| && aligned[i] == "" && aligned[i := ""] == aligned
  {
  }

  lemma AllSettled(lyrics: seq<Line>, translations: seq<Line>, matched: seq<Option<nat>>, aligned: seq<string>)
    requires Settled(lyrics, translations, matched, aligned, |lyrics|)
    ensures |matched| == |lyrics|
    ensures forall i :: 0 <= i < |lyrics| ==>
      (matched[i].Some? ==> matched[i].value < |translations|) && aligned[i] == Shown(lyrics[i], translations, matched[i])
  {
  }

  lemma {:induction false} NothingUsed(order: seq<nat>)
    ensures Unused(order, {}) == order
  {
    if order != [] {
      NothingUsed(order[1..]);
      assert order == [order[0]] + order[1..];
    }
  }

  /** Once nothing is left, no later line gets anything. */
  lemma {:induction false} NoneLeft(lyrics: seq<Line>, translations: seq<Line>, order: seq<nat>, used: set<nat>, i: nat)
    requires i <= |lyrics| && Indices(order, |translations|) && Unused(order, used) == []
    ensures forall k :: 0 <= k < |lyrics| - i ==> Greedy(lyrics, translations, order, used, i)[k] == None
    decreases |lyrics| - i
  {
    if i < |lyrics| {
      NoneLeft(lyrics, translations, order, used, i + 1);
    }
  }

  // ---------------------------------------------------------------- what holds for every input

  lemma ToleranceRange(lyrics: seq<Line>, i: nat)
    requires i < |lyrics|
    ensures 0.55 <= Tolerance(lyrics, i) <= 1.5
  {
  }

  lemma ChoiceIsUnused(lyrics: seq<Line>, translations: seq<Line>, order: seq<nat>, used: set<nat>, i: nat)
    requires i < |lyrics| && Indices(order, |translations|)
    ensures var r := Choice(lyrics, translations, order, used, i);
            r.Some? ==> r.value !in used && Distance(translations, r.value, lyrics[i].time) <= Tolerance(lyrics, i)
  {
    UnusedFacts(order, used, |translations|);
  }

  /** Matches of the lines from `i` on: unused before, close, and each used once. */
  ghost predicate DistinctAndClose(lyrics: seq<Line>, translations: seq<Line>, used: set<nat>, i: nat, g: seq<Option<nat>>) {
    && i + |g| == |lyrics|
    && (forall k :: 0 <= k < |g| && g[k].Some? ==> g[k].value < |translations| && g[k].value !in used)
    && (forall k :: 0 <= k < |g| && g[k].Some? ==>
          Distance(translations, g[k].value, lyrics[i + k].time) <= Tolerance(lyrics, i + k))
    && (forall k, m :: 0 <= k < m < |g| && g[k].Some? && g[m].Some? ==> g[k].value != g[m].value)
  }

  lemma OneMoreLine(lyrics: seq<Line>, translations: seq<Line>, used: set<nat>, i: nat, choice: Option<nat>, rest: seq<Option<nat>>)
    requires i < |lyrics| && DistinctAndClose(lyrics, translations, With(used, choice), i + 1, rest)
    requires choice.Some? ==> choice.value < |translations| && choice.value !in used
                              && Distance(translations, choice.value, lyrics[i].time) <= Tolerance(lyrics, i)
    ensures DistinctAndClose(lyrics, translations, used, i, [choice] + rest)
  {
    hide Tolerance, Distance;
    var g := [choice] + rest;
    forall k | 0 <= k < |g| && g[k].Some?
      ensures g[k].value < |translations| && g[k].value !in used
      ensures Distance(translations, g[k].value, lyrics[i + k].time) <= Tolerance(lyrics, i + k)
    {
      if k > 0 {
        var n := k - 1;
        assert g[k] == rest[n] && i + 1 + n == i + k;
      }
    }
    forall k, m | 0 <= k < m < |g| && g[k].Some? && g[m].Some? ensures g[k].value != g[m].value {
      assert g[m] == rest[m - 1];
      if k > 0 {
        assert g[k] == rest[k - 1];
      }
    }
  }

  /** Every line's match is within its tolerance, and no translation is used twice. */
  lemma {:induction false} MatchesAreDistinctAndClose(lyrics: seq<Line>, translations: seq<Line>, order: seq<nat>, used: set<nat>, i: nat)
    requires i <= |lyrics| && Indices(order, |translations|)
    ensures DistinctAndClose(lyrics, translations, used, i, Greedy(lyrics, translations, order, used, i))
    decreases |lyrics| - i
  {
    hide Tolerance, Distance, Choice;
    if i < |lyrics| {
      var choice := Choice(lyrics, translations, order, used, i);
      ChoiceIsUnused(lyrics, translations, order, used, i);
      MatchesAreDistinctAndClose(lyrics, translations, order, With(used, choice), i + 1);
      OneMoreLine(lyrics, translations, used, i, choice, Greedy(lyrics, translations, order, With(used, choice), i + 1));
    }
  }

  // ---------------------------------------------------------------- lines far apart

  function Gap(lyrics: seq<Line>, i: nat): real
    requires i + 1 < |lyrics|
  {
    lyrics[i + 1].time - lyrics[i].time
  }

  /** Consecutive lines are more than 1.1 s apart. */
  ghost predicate FarApart(lyrics: seq<Line>) {
    forall i :: 0 <= i < |lyrics| - 1 ==> Gap(lyrics, i) > 1.1
  }

  lemma {:induction false} Ascend(lyrics: seq<Line>, i: nat, k: nat)
    requires FarApart(lyrics) && i <= k < |lyrics|
    ensures lyrics[i].time <= lyrics[k].time
    ensures i < k ==> lyrics[k].time - lyrics[i].time > 1.1
  {
    if i < k {
      Ascend(lyrics, i, k - 1);
      assert Gap(lyrics, k - 1) > 1.1;
    }
  }

  /** The tolerance windows of two lines do not meet. */
  lemma WindowsApart(lyrics: seq<Line>, i: nat, k: nat)
    requires FarApart(lyrics) && i < k < |lyrics|
    ensures Tolerance(lyrics, i) + Tolerance(lyrics, k) < lyrics[k].time - lyrics[i].time
  {
    Ascend(lyrics, i + 1, k);
    Ascend(lyrics, i, k - 1);
    Ascend(lyrics, i, k);
    var gap := lyrics[k].time - lyrics[i].time;
    ToleranceBelow(lyrics, i, Gap(lyrics, i));
    ToleranceBelow(lyrics, k, Gap(lyrics, k - 1));
  }

  /** A neighbouring gap bounds the tolerance. */
  lemma ToleranceBelow(lyrics: seq<Line>, i: nat, gap: real)
    requires i < |lyrics| && gap > 1.1
    requires (i > 0 && gap == lyrics[i].time - lyrics[i - 1].time) || (i + 1 < |lyrics| && gap == lyrics[i + 1].time - lyrics[i].time)
    ensures Tolerance(lyrics, i) <= Max(0.55, gap * 0.35)
  {
  }

  /** Whatever is used up was close to an earlier line. */
  ghost predicate UsedByEarlier(lyrics: seq<Line>, translations: seq<Line>, used: set<nat>, i: nat)
    requires i <= |lyrics|
  {
    forall u :: u in used ==>
      (u < |translations| &&
        exists j :: 0 <= j < i && Distance(translations, u, lyrics[j].time) <= Tolerance(lyrics, j))
  }

  lemma NotTakenBefore(lyrics: seq<Line>, translations: seq<Line>, used: set<nat>, i: nat, k: nat)
    requires FarApart(lyrics) && i < |lyrics| && k < |translations|
    requires UsedByEarlier(lyrics, translations, used, i)
    requires Distance(translations, k, lyrics[i].time) <= Tolerance(lyrics, i)
    ensures k !in used
  {
    hide Tolerance;
    if k in used {
      var j :| 0 <= j < i && Distance(translations, k, lyrics[j].time) <= Tolerance(lyrics, j);
      WindowsApart(lyrics, j, i);
    }
  }

  /** The first nearest of a list is the first nearest of what remains of it, if it remains. */
  lemma {:induction false} NearestSurvives(order: seq<nat>, used: set<nat>, translations: seq<Line>, time: real)
    requires order != [] && Indices(order, |translations|)
    requires Nearest(order, translations, time) !in used
    ensures Indices(Unused(order, used), |translations|) && Unused(order, used) != []
    ensures Nearest(Unused(order, used), translations, time) == Nearest(order, translations, time)
  {
    hide Distance;
    UnusedFacts(order, used, |translations|);
    NearestIsLeast(order, translations, time);
    var k := Nearest(order, translations, time);
    var later := order[1..];
    if |order| > 1 && Nearest(later, translations, time) == k && !(order[0] == k) {
      NearestSurvives(later, used, translations, time);
      UnusedFacts(later, used, |translations|);
    } else if later != [] {
      UnusedFacts(later, used, |translations|);
      if Unused(later, used) != [] {
        var n := Nearest(Unused(later, used), translations, time);
        assert n in later;
        var at :| 0 <= at < |later| && later[at] == n;
        assert order[at + 1] == n;
      }
    }
  }

  lemma ChoiceIsAlone(lyrics: seq<Line>, translations: seq<Line>, order: seq<nat>, used: set<nat>, i: nat)
    requires FarApart(lyrics) && i < |lyrics| && Indices(order, |translations|)
    requires UsedByEarlier(lyrics, translations, used, i)
    ensures Choice(lyrics, translations, order, used, i) == Alone(lyrics, translations, order, i)
  {
    hide Tolerance, Distance;
    NothingUsed(order);
    UnusedFacts(order, used, |translations|);
    if order != [] {
      var time := lyrics[i].time;
      var k := Nearest(order, translations, time);
      if Distance(translations, k, time) <= Tolerance(lyrics, i) {
        NotTakenBefore(lyrics, translations, used, i, k);
        NearestSurvives(order, used, translations, time);
      } else if Unused(order, used) != [] {
        var n := Nearest(Unused(order, used), translations, time);
        NearestIsLeast(order, translations, time);
        var at :| 0 <= at < |order| && order[at] == n;
      }
    }
  }

  /** Far-apart lines: the greedy result is what every line takes on its own. */
  lemma {:induction false} GreedyIsIndependent(lyrics: seq<Line>, translations: seq<Line>, order: seq<nat>, used: set<nat>, i: nat)
    requires FarApart(lyrics) && i <= |lyrics| && Indices(order, |translations|)
    requires UsedByEarlier(lyrics, translations, used, i)
    ensures forall k :: 0 <= k < |lyrics| - i ==>
      Greedy(lyrics, translations, order, used, i)[k] == Alone(lyrics, translations, order, i + k)
    decreases |lyrics| - i
  {
    hide Tolerance, Distance, Choice;
    if i < |lyrics| {
      var choice := Choice(lyrics, translations, order, used, i);
      ChoiceIsAlone(lyrics, translations, order, used, i);
      ChoiceIsUnused(lyrics, translations, order, used, i);
      GreedyIsIndependent(lyrics, translations, order, With(used, choice), i + 1);
      var rest := Greedy(lyrics, translations, order, With(used, choice), i + 1);
      forall k | 0 <= k < |lyrics| - i
        ensures Greedy(lyrics, translations, order, used, i)[k] == Alone(lyrics, translations, order, i + k)
      {
        if k > 0 {
          assert rest[k - 1] == Alone(lyrics, translations, order, i + 1 + (k - 1));
        }
      }
    }
  }

  // ---------------------------------------------------------------- line by line

  /** The translations gone before line `n`. */
  ghost function Taken(lyrics: seq<Line>, translations: seq<Line>, order: seq<nat>, n: nat): set<nat>
    requires n <= |lyrics| && Indices(order, |translations|)
  {
    if n == 0 then {}
    else
      var before := Taken(lyrics, translations, order, n - 1);
      With(before, Choice(lyrics, translations, order, before, n - 1))
  }

  lemma {:induction false} GreedyAt(lyrics: seq<Line>, translations: seq<Line>, order: seq<nat>, i: nat, n: nat)
    requires i <= n < |lyrics| && Indices(order, |translations|)
    ensures Greedy(lyrics, translations, order, Taken(lyrics, translations, order, i), i)[n - i]
         == Choice(lyrics, translations, order, Taken(lyrics, translations, order, n), n)
    decreases n - i
  {
    hide Choice;
    if i < n {
      GreedyAt(lyrics, translations, order, i + 1, n);
    }
  }

  lemma {:induction false} TakenGrows(lyrics: seq<Line>, translations: seq<Line>, order: seq<nat>, i: nat, k: nat)
    requires i <= k <= |lyrics| && Indices(order, |translations|)
    ensures Taken(lyrics, translations, order, i) <= Taken(lyrics, translations, order, k)
  {
    hide Choice;
    if i < k {
      TakenGrows(lyrics, translations, order, i, k - 1);
    }
  }

  /** The chosen translation is a nearest one of those left; an ascending iteration prefers the lowest. */
  lemma ChoiceIsNearest(lyrics: seq<Line>, translations: seq<Line>, order: seq<nat>, used: set<nat>, i: nat, c: nat)
    requires i < |lyrics| && Indices(order, |translations|)
    requires Choice(lyrics, translations, order, used, i).Some? && c in order && c !in used
    ensures
      var k := Choice(lyrics, translations, order, used, i).value;
      var time := lyrics[i].time;
      && c < |translations|
      && Distance(translations, k, time) <= Distance(translations, c, time)
      && (Ascending(order) && c < k ==> Distance(translations, k, time) < Distance(translations, c, time))
  {
    hide Tolerance, Distance;
    UnusedFacts(order, used, |translations|);
    var unused := Unused(order, used);
    var at :| 0 <= at < |unused| && unused[at] == c;
    NearestIsLeast(unused, translations, lyrics[i].time);
    if Ascending(order) && c < Choice(lyrics, translations, order, used, i).value {
      FilterAscending(k => k !in used, order);
      AscendingUnused(order, used);
      NearestIsLowest(unused, translations, lyrics[i].time, at);
    }
  }

  lemma {:induction false} AscendingUnused(order: seq<nat>, used: set<nat>)
    ensures Filter<int>(k => k !in used, order) == Unused(order, used)
  {
    if order != [] {
      AscendingUnused(order[1..], used);
    }
  }

  lemma {:induction false} NearestIsLowest(candidates: seq<nat>, translations: seq<Line>, time: real, at: nat)
    requires Ascending(candidates) && Indices(candidates, |translations|) && at < |candidates|
    requires candidates[at] < Nearest(candidates, translations, time)
    ensures Distance(translations, Nearest(candidates, translations, time), time) < Distance(translations, candidates[at], time)
  {
    hide Distance;
    NearestIsLeast(candidates, translations, time);
    if at > 0 {
      NearestIsLowest(candidates[1..], translations, time, at - 1);
    }
  }

  /** A translation nearer than all others that are left is the one taken. */
  lemma ChoiceIsUnique(lyrics: seq<Line>, translations: seq<Line>, order: seq<nat>, used: set<nat>, i: nat, k: nat)
    requires i < |lyrics| && Indices(order, |translations|) && k in order && k !in used && k < |translations|
    requires Distance(translations, k, lyrics[i].time) <= Tolerance(lyrics, i)
    requires forall c :: c in order && c !in used && c != k ==>
      c < |translations| && Distance(translations, k, lyrics[i].time) < Distance(translations, c, lyrics[i].time)
    ensures Choice(lyrics, translations, order, used, i) == Some(k)
  {
    hide Tolerance, Distance;
    UnusedFacts(order, used, |translations|);
    var unused := Unused(order, used);
    var at :| 0 <= at < |unused| && unused[at] == k;
    NearestIsLeast(unused, translations, lyrics[i].time);
  }

  lemma NothingInReach(lyrics: seq<Line>, translations: seq<Line>, order: seq<nat>, used: set<nat>, i: nat)
    requires i < |lyrics| && Indices(order, |translations|)
    requires forall c :: 0 <= c < |translations| ==> Distance(translations, c, lyrics[i].time) > Tolerance(lyrics, i)
    ensures Choice(lyrics, translations, order, used, i) == None
  {
    hide Tolerance, Distance;
    UnusedFacts(order, used, |translations|);
  }

  // ---------------------------------------------------------------- when the order is kept

  ghost predicate InTimeOrder(lines: seq<Line>) {
    forall a, b :: 0 <= a < b < |lines| ==> lines[a].time <= lines[b].time
  }

  ghost predicate AtDistinctTimes(lines: seq<Line>) {
    forall a, b :: 0 <= a < b < |lines| ==> lines[a].time != lines[b].time
  }

  ghost predicate GapsAtLeast(lyrics: seq<Line>, gap: real) {
    forall i :: 0 <= i < |lyrics| - 1 ==> Gap(lyrics, i) >= gap
  }

  /** An order in which a set of all indices may be iterated. */
  ghost predicate Enumerates(order: seq<nat>, n: nat) {
    NoDuplicates(order) && Indices(order, n) && forall k :: 0 <= k < n ==> k in order
  }

  /** Later lines get later translations. */
  ghost predicate KeepsOrder(lyrics: seq<Line>, translations: seq<Line>, order: seq<nat>)
    requires Indices(order, |translations|)
  {
    var g := Greedy(lyrics, translations, order, {}, 0);
    forall i, k :: 0 <= i < k < |g| && g[i].Some? && g[k].Some? ==> g[i].value < g[k].value
  }

  /** Sorted translations; if some of them are simultaneous, the lower index is tried first. */
  ghost predicate TiesInOrder(translations: seq<Line>, order: seq<nat>) {
    && InTimeOrder(translations) && Enumerates(order, |translations|)
    && (AtDistinctTimes(translations) || Ascending(order))
  }

  /** Sorted translations, simultaneous ones tried in any order. */
  ghost predicate TiesInAnyOrder(translations: seq<Line>, order: seq<nat>) {
    InTimeOrder(translations) && Enumerates(order, |translations|)
  }

  /** The gaps before line `n`. */
  ghost predicate GapsBefore(lyrics: seq<Line>, n: nat, gap: real)
    requires n < |lyrics|
  {
    forall i :: 0 <= i < n ==> Gap(lyrics, i) >= gap
  }

  lemma {:induction false} GapsAdd(lyrics: seq<Line>, gap: real, i: nat, k: nat)
    requires i <= k < |lyrics| && GapsBefore(lyrics, k, gap) && gap >= 0.0
    ensures lyrics[i].time <= lyrics[k].time
  {
    if i < k {
      GapsAdd(lyrics, gap, i, k - 1);
      assert Gap(lyrics, k - 1) >= gap;
    }
  }

  /** With gaps of 0.55 s or more a line reaches no further than its neighbours. */
  lemma ToleranceWithinGap(lyrics: seq<Line>, i: nat)
    requires i < |lyrics|
    ensures i > 0 && lyrics[i].time - lyrics[i - 1].time >= 0.55 ==> Tolerance(lyrics, i) <= lyrics[i].time - lyrics[i - 1].time
    ensures i + 1 < |lyrics| && lyrics[i + 1].time - lyrics[i].time >= 0.55 ==>
      Tolerance(lyrics, i) <= lyrics[i + 1].time - lyrics[i].time
  {
  }

  /** What a line passed over lies before it, so far that no later line can reach back to it. */
  lemma PassedOverIsLost(translations: seq<Line>, p: nat, q: nat, t: real, later: real, reach: real)
    requires p < q < |translations| && InTimeOrder(translations) && t + reach <= later
    requires Distance(translations, q, t) <= Distance(translations, p, t)
    requires Distance(translations, q, t) < Distance(translations, p, t) || AtDistinctTimes(translations)
    ensures Distance(translations, p, later) > reach
  {
    assert translations[p].time <= translations[q].time;
  }

  lemma WideGapsKeepOrder(lyrics: seq<Line>, translations: seq<Line>, order: seq<nat>, i: nat, k: nat)
    requires GapsAtLeast(lyrics, 0.55) && TiesInOrder(translations, order) && i < k < |lyrics|
    requires var g := Greedy(lyrics, translations, order, {}, 0); g[i].Some? && g[k].Some?
    ensures var g := Greedy(lyrics, translations, order, {}, 0); g[i].value < g[k].value
  {
    hide Tolerance, Greedy, Choice, Distance, Taken, Ascending;
    var g := Greedy(lyrics, translations, order, {}, 0);
    var q, p := g[i].value, g[k].value;
    MatchesAreDistinctAndClose(lyrics, translations, order, {}, 0);
    if p < q {
      LeftForLater(lyrics, translations, order, i, k);
      GapsAdd(lyrics, 0.55, i, k - 1);
      assert Gap(lyrics, k - 1) >= 0.55;
      ToleranceWithinGap(lyrics, k);
      PassedOverIsLost(translations, p, q, lyrics[i].time, lyrics[k].time, Tolerance(lyrics, k));
    }
  }

  /** What a later line takes, an earlier one could have had. */
  lemma LeftForLater(lyrics: seq<Line>, translations: seq<Line>, order: seq<nat>, i: nat, k: nat)
    requires Indices(order, |translations|) && i < k < |lyrics|
    requires var g := Greedy(lyrics, translations, order, {}, 0); g[i].Some? && g[k].Some?
    ensures
      var g := Greedy(lyrics, translations, order, {}, 0);
      var q, p, time := g[i].value, g[k].value, lyrics[i].time;
      && Distance(translations, q, time) <= Distance(translations, p, time)
      && (Ascending(order) && p < q ==> Distance(translations, q, time) < Distance(translations, p, time))
  {
    hide Tolerance, Greedy, Distance, Unused;
    GreedyAt(lyrics, translations, order, 0, i);
    GreedyAt(lyrics, translations, order, 0, k);
    var early, late := Taken(lyrics, translations, order, i), Taken(lyrics, translations, order, k);
    var p := Choice(lyrics, translations, order, late, k).value;
    UnusedFacts(order, late, |translations|);
    TakenGrows(lyrics, translations, order, i, k);
    ChoiceIsNearest(lyrics, translations, order, early, i, p);
  }

  /** A late translation for the line before, if there is one, then one on either side of line `i`. */
  function Crossing(lyrics: seq<Line>, i: nat): seq<Line>
    requires i + 1 < |lyrics|
  {
    var t, aside := lyrics[i].time, (0.55 - Gap(lyrics, i)) / 2.0;
    [Line(if i > 0 then lyrics[i - 1].time + 0.1 else t - 10.0, ""), Line(t - aside, ""), Line(t + aside / 2.0, "")]
  }

  /** The first gap below 0.55 s, in lines that are otherwise in order. */
  ghost predicate FirstNarrow(lyrics: seq<Line>, i: nat) {
    && i + 1 < |lyrics| && GapsBefore(lyrics, i, 0.55)
    && 0.0 <= Gap(lyrics, i) < 0.55
  }

  lemma CrossingTimes(lyrics: seq<Line>, i: nat)
    requires FirstNarrow(lyrics, i)
    ensures InTimeOrder(Crossing(lyrics, i)) && AtDistinctTimes(Crossing(lyrics, i))
  {
    if i > 0 {
      assert Gap(lyrics, i - 1) >= 0.55;
    }
  }

  lemma {:induction false} TakenBeforeCrossing(lyrics: seq<Line>, i: nat, order: seq<nat>, n: nat)
    requires FirstNarrow(lyrics, i) && n <= i && Enumerates(order, 3)
    ensures Taken(lyrics, Crossing(lyrics, i), order, n) == if n == i > 0 then {0} else {}
  {
    hide Choice, Tolerance;
    if n > 0 {
      TakenBeforeCrossing(lyrics, i, order, n - 1);
      var line := n - 1;
      assert Gap(lyrics, line) >= 0.55;
      assert Gap(lyrics, i - 1) >= 0.55;
      ToleranceWithinGap(lyrics, line);
      ToleranceRange(lyrics, line);
      if n == i {
        ChoiceIsUnique(lyrics, Crossing(lyrics, i), order, {}, line, 0);
      } else {
        GapsAdd(lyrics, 0.55, n, i - 1);
        NothingInReach(lyrics, Crossing(lyrics, i), order, {}, line);
      }
    }
  }

  /** Lines less than 0.55 s apart cross for some translations, however these are iterated. */
  lemma CloseLinesCanCross(lyrics: seq<Line>, i: nat, order: seq<nat>)
    requires FirstNarrow(lyrics, i) && Enumerates(order, 3)
    ensures
      var g := Greedy(lyrics, Crossing(lyrics, i), order, {}, 0);
      g[i] == Some(2) && g[i + 1] == Some(1)
  {
    hide Choice, Greedy, Tolerance;
    var translations := Crossing(lyrics, i);
    TakenBeforeCrossing(lyrics, i, order, i);
    var used := Taken(lyrics, translations, order, i);
    ToleranceRange(lyrics, i);
    ToleranceRange(lyrics, i + 1);
    ChoiceIsUnique(lyrics, translations, order, used, i, 2);
    ChoiceIsUnique(lyrics, translations, order, used + {2}, i + 1, 1);
    assert Taken(lyrics, translations, order, i + 1) == used + {2};
    GreedyAt(lyrics, translations, order, 0, i);
    GreedyAt(lyrics, translations, order, 0, i + 1);
  }

  lemma {:induction false} FirstNarrowOf(lyrics: seq<Line>, n: nat)
    requires InTimeOrder(lyrics) && n + 1 < |lyrics| && Gap(lyrics, n) < 0.55
    ensures exists i :: FirstNarrow(lyrics, i)
  {
    if j: nat :| j < n && Gap(lyrics, j) < 0.55 {
      FirstNarrowOf(lyrics, j);
    } else {
      assert FirstNarrow(lyrics, n);
    }
  }

  lemma WideGapsKeepAll(lyrics: seq<Line>, translations: seq<Line>, order: seq<nat>)
    requires GapsAtLeast(lyrics, 0.55) && TiesInOrder(translations, order)
    ensures KeepsOrder(lyrics, translations, order)
  {
    hide Greedy, GapsAtLeast, InTimeOrder, NoDuplicates, Ascending;
    var g := Greedy(lyrics, translations, order, {}, 0);
    forall i, k | 0 <= i < k < |g| && g[i].Some? && g[k].Some? ensures g[i].value < g[k].value {
      WideGapsKeepOrder(lyrics, translations, order, i, k);
    }
  }

  lemma NarrowGapCrosses(lyrics: seq<Line>)
    requires InTimeOrder(lyrics) && !GapsAtLeast(lyrics, 0.55)
    ensures exists translations, order :: TiesInOrder(translations, order) && !KeepsOrder(lyrics, translations, order)
  {
    hide Greedy, InTimeOrder;
    var n :| 0 <= n < |lyrics| - 1 && Gap(lyrics, n) < 0.55;
    FirstNarrowOf(lyrics, n);
    var i :| FirstNarrow(lyrics, i);
    var translations, order: seq<nat> := Crossing(lyrics, i), [0, 1, 2];
    assert order[0] == 0 && order[1] == 1 && order[2] == 2;
    CloseLinesCanCross(lyrics, i, order);
    CrossingTimes(lyrics, i);
    assert TiesInOrder(translations, order) && !KeepsOrder(lyrics, translations, order);
  }

  /**
   Exactly lines that are all at least 0.55 s apart keep every sorted list of translations in order, if
   simultaneous translations are tried in theirs.
   */
  lemma OrderKeptIff(lyrics: seq<Line>)
    requires InTimeOrder(lyrics)
    ensures GapsAtLeast(lyrics, 0.55) <==>
      forall translations, order | TiesInOrder(translations, order) :: KeepsOrder(lyrics, translations, order)
  {
    hide KeepsOrder, GapsAtLeast, InTimeOrder;
    if GapsAtLeast(lyrics, 0.55) {
      forall translations, order | TiesInOrder(translations, order) ensures KeepsOrder(lyrics, translations, order) {
        WideGapsKeepAll(lyrics, translations, order);
      }
    } else {
      NarrowGapCrosses(lyrics);
    }
  }

  // ---------------------------------------------------------------- when lines are independent

  /** Far-apart lines and translations in time order: later lines get later translations. */
  lemma MatchingKeepsOrder(lyrics: seq<Line>, translations: seq<Line>, order: seq<nat>, i: nat, k: nat)
    requires FarApart(lyrics) && i < k < |lyrics| && Indices(order, |translations|) && InTimeOrder(translations)
    requires var g := Greedy(lyrics, translations, order, {}, 0); g[i].Some? && g[k].Some?
    ensures var g := Greedy(lyrics, translations, order, {}, 0); g[i].value < g[k].value
  {
    hide Tolerance, Greedy;
    MatchesAreDistinctAndClose(lyrics, translations, order, {}, 0);
    WindowsApart(lyrics, i, k);
  }

  /** The first gap of at most 1.1 s, in lines that are otherwise in order. */
  ghost predicate FirstNear(lyrics: seq<Line>, i: nat) {
    && i + 1 < |lyrics| && 0.0 <= Gap(lyrics, i) <= 1.1
    && forall j :: 0 <= j < i ==> Gap(lyrics, j) > 1.1
  }

  /** So many translations half way between two lines. */
  function Between(lyrics: seq<Line>, i: nat, n: nat): seq<Line>
    requires i + 1 < |lyrics|
  {
    seq(n, _ => Line((lyrics[i].time + lyrics[i + 1].time) / 2.0, ""))
  }

  lemma {:induction false} NothingTakenBefore(lyrics: seq<Line>, i: nat, order: seq<nat>, n: nat)
    requires FirstNear(lyrics, i) && n <= i && Indices(order, 2)
    ensures Taken(lyrics, Between(lyrics, i, 2), order, n) == {}
  {
    hide Choice, Tolerance;
    if n > 0 {
      NothingTakenBefore(lyrics, i, order, n - 1);
      GapsAdd(lyrics, 1.1, n, i);
      assert Gap(lyrics, n - 1) > 1.1;
      ToleranceBelow(lyrics, n - 1, lyrics[n].time - lyrics[n - 1].time);
      NothingInReach(lyrics, Between(lyrics, i, 2), order, {}, n - 1);
    }
  }

  /** Two simultaneous translations cross between lines at most 1.1 s apart when the second is tried first. */
  lemma SimultaneousCanCross(lyrics: seq<Line>, i: nat)
    requires FirstNear(lyrics, i)
    ensures
      var g := Greedy(lyrics, Between(lyrics, i, 2), [1, 0], {}, 0);
      g[i] == Some(1) && g[i + 1] == Some(0)
  {
    hide Choice, Greedy, Tolerance;
    var translations := Between(lyrics, i, 2);
    var order: seq<nat> := [1, 0];
    NothingTakenBefore(lyrics, i, order, i);
    ToleranceRange(lyrics, i);
    ToleranceRange(lyrics, i + 1);
    SecondIsTriedFirst(lyrics, translations, i);
    ChoiceIsUnique(lyrics, translations, order, {1}, i + 1, 0);
    assert Taken(lyrics, translations, order, i + 1) == {1};
    GreedyAt(lyrics, translations, order, 0, i);
    GreedyAt(lyrics, translations, order, 0, i + 1);
  }

  lemma SecondIsTriedFirst(lyrics: seq<Line>, translations: seq<Line>, i: nat)
    requires i < |lyrics| && |translations| == 2 && translations[0].time == translations[1].time
    requires Distance(translations, 0, lyrics[i].time) <= Tolerance(lyrics, i)
    ensures Choice(lyrics, translations, [1, 0], {}, i) == Some(1)
  {
    hide Tolerance;
    var order: seq<nat> := [1, 0];
    NothingUsed(order);
    assert Nearest(order, translations, lyrics[i].time) == 1;
  }

  lemma NearLinesCross(lyrics: seq<Line>)
    requires InTimeOrder(lyrics) && !FarApart(lyrics)
    ensures exists translations, order :: TiesInAnyOrder(translations, order) && !KeepsOrder(lyrics, translations, order)
  {
    hide Greedy;
    var n :| 0 <= n < |lyrics| - 1 && Gap(lyrics, n) <= 1.1;
    FirstNearOf(lyrics, n);
    var i :| FirstNear(lyrics, i);
    var translations, order: seq<nat> := Between(lyrics, i, 2), [1, 0];
    assert order[0] == 1 && order[1] == 0;
    SimultaneousCanCross(lyrics, i);
    assert TiesInAnyOrder(translations, order) && !KeepsOrder(lyrics, translations, order);
  }

  /** Exactly lines more than 1.1 s apart keep the order however simultaneous translations are tried. */
  lemma OrderKeptForAnyTiesIff(lyrics: seq<Line>)
    requires InTimeOrder(lyrics)
    ensures FarApart(lyrics) <==>
      forall translations, order | TiesInAnyOrder(translations, order) :: KeepsOrder(lyrics, translations, order)
  {
    hide Greedy, FarApart;
    if FarApart(lyrics) {
      forall translations, order | TiesInAnyOrder(translations, order) ensures KeepsOrder(lyrics, translations, order) {
        var g := Greedy(lyrics, translations, order, {}, 0);
        forall i, k | 0 <= i < k < |g| && g[i].Some? && g[k].Some? ensures g[i].value < g[k].value {
          MatchingKeepsOrder(lyrics, translations, order, i, k);
        }
      }
    } else {
      NearLinesCross(lyrics);
    }
  }

  lemma {:induction false} FirstNearOf(lyrics: seq<Line>, n: nat)
    requires InTimeOrder(lyrics) && n + 1 < |lyrics| && Gap(lyrics, n) <= 1.1
    ensures exists i :: FirstNear(lyrics, i)
  {
    if j: nat :| j < n && Gap(lyrics, j) <= 1.1 {
      FirstNearOf(lyrics, j);
    } else {
      assert FirstNear(lyrics, n);
    }
  }

  /** Every line gets what it would take alone. */
  ghost predicate Independent(lyrics: seq<Line>, translations: seq<Line>, order: seq<nat>)
    requires Indices(order, |translations|)
  {
    forall i :: 0 <= i < |lyrics| ==>
      Greedy(lyrics, translations, order, {}, 0)[i] == Alone(lyrics, translations, order, i)
  }

  /** Exactly lines more than 1.1 s apart are independent, whatever the translations. */
  lemma IndependentIff(lyrics: seq<Line>)
    requires InTimeOrder(lyrics)
    ensures FarApart(lyrics) <==>
      forall translations, order | Enumerates(order, |translations|) :: Independent(lyrics, translations, order)
  {
    hide Greedy, Tolerance, Alone;
    if FarApart(lyrics) {
      forall translations, order | Enumerates(order, |translations|) ensures Independent(lyrics, translations, order) {
        GreedyIsIndependent(lyrics, translations, order, {}, 0);
      }
    } else {
      var n :| 0 <= n < |lyrics| - 1 && Gap(lyrics, n) <= 1.1;
      FirstNearOf(lyrics, n);
      var i :| FirstNear(lyrics, i);
      var order: seq<nat> := [0];
      assert order[0] == 0;
      BothWantIt(lyrics, i);
      MatchesAreDistinctAndClose(lyrics, Between(lyrics, i, 1), order, {}, 0);
      assert !Independent(lyrics, Between(lyrics, i, 1), order);
    }
  }

  /** A translation half way between two lines at most 1.1 s apart is in reach of both. */
  lemma BothWantIt(lyrics: seq<Line>, i: nat)
    requires i + 1 < |lyrics| && 0.0 <= Gap(lyrics, i) <= 1.1
    ensures Alone(lyrics, Between(lyrics, i, 1), [0], i) == Some(0) == Alone(lyrics, Between(lyrics, i, 1), [0], i + 1)
  {
    hide Tolerance, Choice;
    var order: seq<nat> := [0];
    ToleranceRange(lyrics, i);
    ToleranceRange(lyrics, i + 1);
    ChoiceIsUnique(lyrics, Between(lyrics, i, 1), order, {}, i, 0);
    ChoiceIsUnique(lyrics, Between(lyrics, i, 1), order, {}, i + 1, 0);
  }

  // ---------------------------------------------------------------- what the text and the tolerance are

  ghost predicate OccursAt(part: string, text: string, i: int) {
    0 <= i <= |text| - |part| && text[i..i + |part|] == part
  }

  /** The part occurs somewhere in the text. */
  ghost predicate Occurs(part: string, text: string) {
    exists i :: OccursAt(part, text, i)
  }

  lemma {:induction false} ContainsIsOccurs(text: string, part: string)
    ensures Contains(text, part) <==> Occurs(part, text)
  {
    if part <= text {
      assert OccursAt(part, text, 0);
    } else if text != [] {
      ContainsIsOccurs(text[1..], part);
      if Occurs(part, text) {
        var i :| OccursAt(part, text, i);
        assert OccursAt(part, text[1..], i - 1);
      }
      if Occurs(part, text[1..]) {
        var i :| OccursAt(part, text[1..], i);
        assert OccursAt(part, text, i + 1);
      }
    } else {
      assert |part| > 0;
    }
  }

  /** White space apart, the text contains one of the copyright notices. */
  ghost predicate IsNotice(text: string) {
    var compact := Filter(c => !PySpace(c), text);
    Occurs(NOTICES[0], compact) || Occurs(NOTICES[1], compact)
  }

  lemma CompactOfStripped(text: string)
    ensures Filter(c => !PySpace(c), PyStrip(text)) == Filter(c => !PySpace(c), text)
  {
    hide Trim, PySpace;
    var solid := c => !PySpace(c);
    TrimIsMiddle(PySpace, text);
    var i, j :| IsMiddle(PySpace, text, PyStrip(text), i, j);
    assert text == text[..i] + (text[i..j] + text[j..]);
    FilterAppend(solid, text[..i], text[i..j] + text[j..]);
    FilterAppend(solid, text[i..j], text[j..]);
    FilterNone(solid, text[..i]);
    FilterNone(solid, text[j..]);
  }

  lemma BlankOrSlashes(text: string)
    ensures PyStrip(text) == "" || PyStrip(Filter(c => c != '/', PyStrip(text))) == ""
       <==> forall c :: c in text ==> PySpace(c) || c == '/'
  {
    hide Trim, PySpace;
    var stripped := PyStrip(text);
    TrimIsMiddle(PySpace, text);
    var i, j :| IsMiddle(PySpace, text, stripped, i, j);
    BlankIffAllSpace(PySpace, text);
    BlankIffAllSpace(PySpace, Filter(c => c != '/', stripped));
    FilterMembers(c => c != '/', stripped);
    forall c | c in text && !PySpace(c) ensures c in stripped {
      var k :| 0 <= k < |text| && text[k] == c;
      assert stripped[k - i] == c;
    }
    assert forall c :: c in stripped ==> c in text;
  }

  /** A translation is shown trimmed; it is dropped exactly if it has nothing but white space and slashes, or
      is a copyright notice. */
  lemma CleanIs(text: string)
    ensures Clean(text) == "" || Clean(text) == PyStrip(text)
    ensures Clean(text) == "" <==> (forall c :: c in text ==> PySpace(c) || c == '/') || IsNotice(text)
  {
    hide PyStrip, Filter, Contains, Occurs;
    BlankOrSlashes(text);
    CompactOfStripped(text);
    ContainsIsOccurs(Filter(c => !PySpace(c), PyStrip(text)), NOTICES[0]);
    ContainsIsOccurs(Filter(c => !PySpace(c), PyStrip(text)), NOTICES[1]);
  }

  /** The gap a line's tolerance depends on: the narrower of its two, where there are two. */
  ghost predicate LocalGap(lyrics: seq<Line>, i: nat, gap: real)
    requires i < |lyrics|
  {
    var previous := if i > 0 then Gap(lyrics, i - 1) else 4.0;
    if i + 1 < |lyrics| then (gap == previous || gap == Gap(lyrics, i)) && gap <= previous && gap <= Gap(lyrics, i)
    else gap == previous
  }

  /** The tolerance is 35 percent of it, but never below 0.55 s nor above 1.5 s. */
  lemma ToleranceIs(lyrics: seq<Line>, i: nat, gap: real)
    requires i < |lyrics| && LocalGap(lyrics, i, gap)
    ensures gap * 0.35 <= 0.55 ==> Tolerance(lyrics, i) == 0.55
    ensures 0.55 <= gap * 0.35 <= 1.5 ==> Tolerance(lyrics, i) == gap * 0.35
    ensures gap * 0.35 >= 1.5 ==> Tolerance(lyrics, i) == 1.5
  {
  }

  /** A matched translation appears under its line exactly if something of it is left that the line does not say itself. */
  lemma ShownIs(line: Line, translations: seq<Line>, choice: Option<nat>)
    requires choice.Some? ==> choice.value < |translations|
    ensures
      var shown := Shown(line, translations, choice);
      if choice.None? then shown == ""
      else
        var text := translations[choice.value].text;
        && (shown == "" || shown == PyStrip(text))
        && (shown == "" <==> (forall c :: c in text ==> PySpace(c) || c == '/') || IsNotice(text) || PyStrip(text) == PyStrip(line.text))
  {
    hide PyStrip, Clean, IsNotice, PySpace;
    if choice.Some? {
      CleanIs(translations[choice.value].text);
    }
  }
}
