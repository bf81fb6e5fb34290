/** White space as Python and JavaScript see it, and what they trim. */
module Text {

  /** The characters Python's `strip` removes. */
  predicate PySpace(c: char) {
    || '\U{0009}' <= c <= '\U{000D}' || '\U{001C}' <= c <= '\U{0020}' || c == '\U{0085}' || CommonSpace(c)
  }

  /** The characters JavaScript's `trim` removes. */
  predicate JsSpace(c: char) {
    || '\U{0009}' <= c <= '\U{000D}' || c == '\U{0020}' || c == '\U{FEFF}' || CommonSpace(c)
  }

  predicate CommonSpace(c: char) {
    || c == '\U{00A0}' || c == '\U{1680}' || '\U{2000}' <= c <= '\U{200A}' || c == '\U{2028}' || c == '\U{2029}'
    || c == '\U{202F}' || c == '\U{205F}' || c == '\U{3000}'
  }

  function Trim(space: char -> bool, s: string): string {
    if s == [] then s
    else if space(s[0]) then Trim(space, s[1..])
    else if space(s[|s| - 1]) then Trim(space, s[..|s| - 1])
    else s
  }

  function PyStrip(s: string): string {
    Trim(PySpace, s)
  }

  function JsTrim(s: string): string {
    Trim(JsSpace, s)
  }

  /** White space in one of the two languages only: the byte-order mark, four separators and next line. */
  predicate OneSided(c: char) {
    c == '\U{FEFF}' || '\U{001C}' <= c <= '\U{001F}' || c == '\U{0085}'
  }

  predicate BothSpace(c: char) {
    PySpace(c) && JsSpace(c)
  }

  /** A text without the characters both languages trim from its ends. */
  function CommonTrim(s: string): string {
    Trim(BothSpace, s)
  }

  lemma {:induction false} TrimLast(space: char -> bool, s: string)
    requires s != [] && space(s[|s| - 1])
    ensures Trim(space, s) == Trim(space, s[..|s| - 1])
  {
    if |s| > 1 && space(s[0]) {
      TrimLast(space, s[1..]);
      assert s[1..][..|s| - 2] == s[..|s| - 1][1..];
    } else if |s| == 1 {
      assert s[1..] == s[..0];
    }
  }

  lemma {:induction false} TrimEnds(space: char -> bool, s: string)
    ensures
      var t := Trim(space, s);
      t == [] || (!space(t[0]) && !space(t[|t| - 1]))
  {
    if s != [] {
      TrimEnds(space, s[1..]);
      TrimEnds(space, s[..|s| - 1]);
    }
  }

  /** What is not white space stays at its end. */
  lemma {:induction false} TrimKeeps(space: char -> bool, s: string)
    requires s != []
    ensures !space(s[0]) ==> Trim(space, s) != [] && Trim(space, s)[0] == s[0]
    ensures !space(s[|s| - 1]) ==> Trim(space, s) != [] && Trim(space, s)[|Trim(space, s)| - 1] == s[|s| - 1]
  {
    if |s| > 1 {
      TrimKeeps(space, s[1..]);
      TrimKeeps(space, s[..|s| - 1]);
    }
  }

  lemma {:induction false} TrimAfterCommon(space: char -> bool, s: string)
    requires forall c :: BothSpace(c) ==> space(c)
    ensures Trim(space, s) == Trim(space, CommonTrim(s))
  {
    if s != [] {
      if BothSpace(s[0]) {
        TrimAfterCommon(space, s[1..]);
      } else if BothSpace(s[|s| - 1]) {
        TrimLast(space, s);
        TrimAfterCommon(space, s[..|s| - 1]);
      }
    }
  }

  /** The languages trim a text alike unless what their common white space leaves begins or ends one-sidedly. */
  lemma TrimsAgreeIff(s: string)
    ensures
      var m := CommonTrim(s);
      JsTrim(s) == PyStrip(s) <==> m == "" || (!OneSided(m[0]) && !OneSided(m[|m| - 1]))
  {
    hide Trim;
    var m := CommonTrim(s);
    OneSidedIsOneLanguage();
    TrimAfterCommon(JsSpace, s);
    TrimAfterCommon(PySpace, s);
    TrimEnds(BothSpace, s);
    TrimEnds(JsSpace, m);
    TrimEnds(PySpace, m);
    if m == "" || (!OneSided(m[0]) && !OneSided(m[|m| - 1])) {
      NothingToTrim(JsSpace, m);
      NothingToTrim(PySpace, m);
    } else {
      TrimKeeps(JsSpace, m);
      TrimKeeps(PySpace, m);
    }
  }

  lemma OneSidedIsOneLanguage()
    ensures forall c :: OneSided(c) <==> PySpace(c) != JsSpace(c)
  {
  }

  lemma NothingToTrim(space: char -> bool, s: string)
    requires s != "" ==> !space(s[0]) && !space(s[|s| - 1])
    ensures Trim(space, s) == s
  {
  }

  /** `t` is what stands between positions `i` and `j`, and outside them is only white space. */
  ghost predicate IsMiddle(space: char -> bool, s: string, t: string, i: int, j: int) {
    && 0 <= i <= j <= |s| && t == s[i..j]
    && (forall k :: 0 <= k < i ==> space(s[k])) && forall k :: j <= k < |s| ==> space(s[k])
  }

  lemma MiddleOfTail(space: char -> bool, s: string, t: string, i: int, j: int)
    requires s != [] && space(s[0]) && IsMiddle(space, s[1..], t, i, j)
    ensures IsMiddle(space, s, t, i + 1, j + 1)
  {
    forall k | 0 <= k < i + 1 ensures space(s[k]) {
      assert k > 0 ==> s[k] == s[1..][k - 1];
    }
    forall k | j + 1 <= k < |s| ensures space(s[k]) {
      assert s[k] == s[1..][k - 1];
    }
  }

  lemma MiddleOfInit(space: char -> bool, s: string, t: string, i: int, j: int)
    requires s != [] && space(s[|s| - 1]) && IsMiddle(space, s[..|s| - 1], t, i, j)
    ensures IsMiddle(space, s, t, i, j)
  {
    var init := s[..|s| - 1];
    forall k | 0 <= k < i ensures space(s[k]) {
      assert s[k] == init[k];
    }
    forall k | j <= k < |s| ensures space(s[k]) {
      assert k < |s| - 1 ==> s[k] == init[k];
    }
  }

  /** What is trimmed away is white space, at the two ends only. */
  lemma {:induction false} TrimIsMiddle(space: char -> bool, s: string)
    ensures exists i, j :: IsMiddle(space, s, Trim(space, s), i, j)
  {
    var t := Trim(space, s);
    if s != [] && space(s[0]) {
      TrimIsMiddle(space, s[1..]);
      var i, j :| IsMiddle(space, s[1..], t, i, j);
      MiddleOfTail(space, s, t, i, j);
    } else if s != [] && space(s[|s| - 1]) {
      TrimIsMiddle(space, s[..|s| - 1]);
      var i, j :| IsMiddle(space, s[..|s| - 1], t, i, j);
      MiddleOfInit(space, s, t, i, j);
    } else {
      assert IsMiddle(space, s, t, 0, |s|);
    }
  }

  lemma {:induction false} BlankIffAllSpace(space: char -> bool, s: string)
    ensures Trim(space, s) == "" <==> forall c :: c in s ==> space(c)
  {
    if s != [] {
      TrimEnds(space, s);
      if space(s[0]) {
        BlankIffAllSpace(space, s[1..]);
        assert s == [s[0]] + s[1..];
      } else {
        TrimKeeps(space, s);
      }
    }
  }
}
