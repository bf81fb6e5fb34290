/**
 The API token that travels as a WebSocket subprotocol name: `backend/auth_contracts.py` builds and
 extracts it, `web/src/core/WebSocketAuth.js` builds it in the browser, and
 `scripts/verify_deployment.py` builds it for its own client.
 */
module TokenProtocol {
  import opened Collections
  import opened Text

  const WEBSOCKET_PROTOCOL := "minerats-v1"
  const WEBSOCKET_TOKEN_PREFIX := "minerats-token."

  // ---------------------------------------------------------------- UTF-8

  function Tail(v: nat): Byte {
    128 + v % 64
  }

  function EncodeChar(c: char): Bytes {
    var v := c as int;
    if v < 0x80 then [v]
    else if v < 0x800 then [192 + v / 64, Tail(v)]
    else if v < 0x1_0000 then [224 + v / 4096, Tail(v / 64), Tail(v)]
    else [240 + v / 262144, Tail(v / 4096), Tail(v / 64), Tail(v)]
  }

  function Utf8(text: string): Bytes {
    if text == [] then [] else EncodeChar(text[0]) + Utf8(text[1..])
  }

  predicate IsTail(b: Byte) {
    128 <= b < 192
  }

  /** The payload of a byte once its marker bits are gone. */
  function Bits(b: Byte, marker: int): int {
    b - marker
  }

  predicate IsScalar(v: int) {
    0 <= v < 0xD800 || 0xE000 <= v < 0x11_0000
  }

  /** The first character and how many bytes it took; overlong forms and surrogates are errors. */
  function DecodeFirst(b: Bytes): Option<(char, nat)>
    requires b != []
  {
    if b[0] < 128 then Some((b[0] as char, 1))
    else if 192 <= b[0] < 224 && |b| >= 2 && IsTail(b[1]) then
      Scalar(Bits(b[0], 192) * 64 + Bits(b[1], 128), 0x80, 2)
    else if 224 <= b[0] < 240 && |b| >= 3 && IsTail(b[1]) && IsTail(b[2]) then
      Scalar(Bits(b[0], 224) * 4096 + Bits(b[1], 128) * 64 + Bits(b[2], 128), 0x800, 3)
    else if 240 <= b[0] < 248 && |b| >= 4 && IsTail(b[1]) && IsTail(b[2]) && IsTail(b[3]) then
      Scalar(Bits(b[0], 240) * 262144 + Bits(b[1], 128) * 4096 + Bits(b[2], 128) * 64 + Bits(b[3], 128), 0x1_0000, 4)
    else None
  }

  function Scalar(v: int, least: int, size: nat): Option<(char, nat)> {
    if least <= v && IsScalar(v) then Some((v as char, size)) else None
  }

  lemma DecodeFirstSize(b: Bytes)
    requires b != [] && DecodeFirst(b).Some?
    ensures 0 < DecodeFirst(b).value.1 <= |b|
  {
  }

  function DecodeUtf8(b: Bytes): Option<string>
    decreases |b|
  {
    if b == [] then Some("")
    else
      match DecodeFirst(b)
      case None => None
      case Some((c, size)) =>
        DecodeFirstSize(b);
        match DecodeUtf8(b[size..])
        case None => None
        case Some(text) => Some([c] + text)
  }

  lemma Digits(v: nat)
    ensures v == v / 64 * 64 + v % 64
    ensures v == v / 4096 * 4096 + v / 64 % 64 * 64 + v % 64
    ensures v == v / 262144 * 262144 + v / 4096 % 64 * 4096 + v / 64 % 64 * 64 + v % 64
  {
    assert v / 64 / 64 == v / 4096 && v / 4096 / 64 == v / 262144;
  }

  lemma CharReadBack(c: char, more: Bytes)
    ensures DecodeFirst(EncodeChar(c) + more) == Some((c, |EncodeChar(c)|))
  {
    var v := c as int;
    var b := EncodeChar(c) + more;
    Digits(v);
    if 0x80 <= v < 0x800 {
      assert b[0] == 192 + v / 64 && b[1] == Tail(v);
    } else if 0x800 <= v < 0x1_0000 {
      assert b[0] == 224 + v / 4096 && b[1] == Tail(v / 64) && b[2] == Tail(v);
    } else if 0x1_0000 <= v {
      assert b[0] == 240 + v / 262144 && b[1] == Tail(v / 4096) && b[2] == Tail(v / 64) && b[3] == Tail(v);
    }
  }

  lemma {:induction false} TextReadBack(text: string)
    ensures DecodeUtf8(Utf8(text)) == Some(text)
  {
    hide DecodeFirst, EncodeChar;
    if text != [] {
      var first := EncodeChar(text[0]);
      var more := Utf8(text[1..]);
      CharReadBack(text[0], more);
      CharNotEmpty(text[0]);
      TextReadBack(text[1..]);
      assert (first + more)[|first|..] == more;
      assert [text[0]] + text[1..] == text;
    }
  }

  lemma CharNotEmpty(c: char)
    ensures EncodeChar(c) != []
  {
  }

  // ---------------------------------------------------------------- base64

  type Sextet = v: int | 0 <= v < 64

  /** Section 4 of RFC 4648. */
  function StandardChar(v: Sextet): char {
    if v < 26 then 'A' + v as char
    else if v < 52 then 'a' + (v - 26) as char
    else if v < 62 then '0' + (v - 52) as char
    else if v == 62 then '+' else '/'
  }

  /** The value of a character in the standard alphabet. */
  function SextetOf(c: char): Option<Sextet> {
    if 'A' <= c <= 'Z' then Some((c - 'A') as int)
    else if 'a' <= c <= 'z' then Some((c - 'a') as int + 26)
    else if '0' <= c <= '9' then Some((c - '0') as int + 52)
    else if c == '+' then Some(62)
    else if c == '/' then Some(63)
    else None
  }

  function Group(a: Byte, b: Byte, c: Byte): string {
    [StandardChar(a / 4), StandardChar(a % 4 * 16 + b / 16), StandardChar(b % 16 * 4 + c / 64), StandardChar(c % 64)]
  }

  /** `b64encode` and `btoa`: standard alphabet, padded. */
  function Base64(b: Bytes): string {
    if |b| == 0 then ""
    else if |b| == 1 then Group(b[0], 0, 0)[..2] + "=="
    else if |b| == 2 then Group(b[0], b[1], 0)[..3] + "="
    else Group(b[0], b[1], b[2]) + Base64(b[3..])
  }

  /** `urlsafe_b64encode` translates the two characters section 5 of RFC 4648 replaces. */
  function UrlSafe(c: char): char {
    if c == '+' then '-' else if c == '/' then '_' else c
  }

  function Unsafe(c: char): char {
    if c == '-' then '+' else if c == '_' then '/' else c
  }

  function Each(f: char -> char, s: string): (r: string)
    ensures |r| == |s| && forall i :: 0 <= i < |s| ==> r[i] == f(s[i])
  {
    if s == [] then "" else [f(s[0])] + Each(f, s[1..])
  }

  /** `rstrip("=")` and `/=+$/`. */
  function WithoutPadding(s: string): string {
    if s != [] && s[|s| - 1] == '=' then WithoutPadding(s[..|s| - 1]) else s
  }

  function Repeat(c: char, n: nat): string {
    seq(n, _ => c)
  }

  /** `"=" * (-len(s) % 4)`; Python's remainder is not negative. */
  function Padding(s: string): string {
    Repeat('=', -|s| % 4)
  }

  predicate IsAscii(s: string) {
    forall c :: c in s ==> c < 128 as char
  }

  /**
   `binascii.a2b_base64`, lenient: characters outside the alphabet are skipped, and padding that
   completes a quad ends the input.  `quad` counts the characters of the current quad, `left` holds the
   bits not yet written.
   */
  function A2b(s: string, quad: nat, left: nat, pads: nat): Option<Bytes>
    requires quad < 4 && left < 64
  {
    if s == [] then if quad == 0 then Some([]) else None
    else if s[0] == '=' then
      if quad >= 2 && quad + pads + 1 >= 4 then Some([])
      else A2b(s[1..], quad, left, if quad >= 2 then pads + 1 else pads)
    else
      match SextetOf(s[0])
      case None => A2b(s[1..], quad, left, pads)
      case Some(v) =>
        if quad == 0 then A2b(s[1..], 1, v, 0)
        else if quad == 1 then Prepend(left * 4 % 256 + v / 16, A2b(s[1..], 2, v % 16, 0))
        else if quad == 2 then Prepend((left * 16 + v / 4) % 256, A2b(s[1..], 3, v % 4, 0))
        else Prepend((left * 64 + v) % 256, A2b(s[1..], 0, 0, 0))
  }

  function Prepend(b: Byte, rest: Option<Bytes>): Option<Bytes> {
    if rest.None? then None else Some([b] + rest.value)
  }

  /** `urlsafe_b64decode`: a character outside ASCII is an error. */
  function UrlSafeDecode(s: string): Option<Bytes> {
    if IsAscii(s) then A2b(Each(Unsafe, s), 0, 0, 0) else None
  }

  // ---------------------------------------------------------------- what decoding gives back

  lemma AlphabetReadBack(v: Sextet)
    ensures SextetOf(StandardChar(v)) == Some(v)
    ensures StandardChar(v) != '=' && Unsafe(UrlSafe(StandardChar(v))) == StandardChar(v)
    ensures UrlSafe(StandardChar(v)) < 128 as char && IsTokenChar(UrlSafe(StandardChar(v)))
  {
  }

  /** The characters an encoded token may contain: no comma, no padding, no white space. */
  predicate IsTokenChar(c: char) {
    'A' <= c <= 'Z' || 'a' <= c <= 'z' || '0' <= c <= '9' || c == '-' || c == '_'
  }

  lemma A2bTakes(v: Sextet, rest: string, quad: nat, left: nat)
    requires quad < 4 && left < 64
    ensures
      A2b([StandardChar(v)] + rest, quad, left, 0) ==
        if quad == 0 then A2b(rest, 1, v, 0)
        else if quad == 1 then Prepend(left * 4 % 256 + v / 16, A2b(rest, 2, v % 16, 0))
        else if quad == 2 then Prepend((left * 16 + v / 4) % 256, A2b(rest, 3, v % 4, 0))
        else Prepend((left * 64 + v) % 256, A2b(rest, 0, 0, 0))
  {
    AlphabetReadBack(v);
    assert ([StandardChar(v)] + rest)[1..] == rest;
  }

  /** A byte spread over two sextets, with the bits that follow it. */
  lemma Spread(a: Byte, high: nat)
    requires high < 16
    ensures a % 4 * 16 + high < 64 && (a % 4 * 16 + high) / 16 == a % 4 && (a % 4 * 16 + high) % 16 == high
    ensures a / 4 * 4 % 256 + a % 4 == a
  {
  }

  lemma SpreadAgain(b: Byte, high: nat)
    requires high < 4
    ensures b % 16 * 4 + high < 64 && (b % 16 * 4 + high) / 4 == b % 16 && (b % 16 * 4 + high) % 4 == high
    ensures (b / 16 * 16 + b % 16) % 256 == b
  {
  }

  lemma TwoDecoded(a: Byte, high: nat, rest: string)
    requires high < 16
    ensures
      A2b([StandardChar(a / 4), StandardChar(a % 4 * 16 + high)] + rest, 0, 0, 0) ==
      Prepend(a, A2b(rest, 2, high, 0))
  {
    hide A2b, StandardChar;
    Spread(a, high);
    var v: Sextet := a % 4 * 16 + high;
    var later := [StandardChar(v)] + rest;
    assert [StandardChar(a / 4), StandardChar(v)] + rest == [StandardChar(a / 4)] + later;
    A2bTakes(a / 4, later, 0, 0);
    A2bTakes(v, rest, 1, a / 4);
  }

  lemma ThirdDecoded(b: Byte, high: nat, rest: string)
    requires high < 4
    ensures A2b([StandardChar(b % 16 * 4 + high)] + rest, 2, b / 16, 0) == Prepend(b, A2b(rest, 3, high, 0))
  {
    hide A2b, StandardChar;
    SpreadAgain(b, high);
    A2bTakes(b % 16 * 4 + high, rest, 2, b / 16);
  }

  lemma GroupDecoded(a: Byte, b: Byte, c: Byte, rest: string)
    ensures A2b(Group(a, b, c) + rest, 0, 0, 0) == Prepend(a, Prepend(b, Prepend(c, A2b(rest, 0, 0, 0))))
  {
    hide A2b, StandardChar;
    var g := Group(a, b, c);
    var fourth := [g[3]] + rest;
    var third := [g[2]] + fourth;
    assert g + rest == [g[0], g[1]] + third;
    TwoDecoded(a, b / 16, third);
    ThirdDecoded(b, c / 64, fourth);
    A2bTakes(c % 64, rest, 3, c / 64);
    assert c / 64 * 64 + c % 64 == c;
  }

  lemma OneDecoded(a: Byte)
    ensures A2b(Base64([a]), 0, 0, 0) == Some([a])
  {
    hide StandardChar;
    assert Base64([a]) == [StandardChar(a / 4), StandardChar(a % 4 * 16 + 0)] + "==";
    TwoDecoded(a, 0, "==");
    assert "=="[1..] == "=";
    assert A2b("==", 2, 0, 0) == A2b("=", 2, 0, 1) == Some([]);
    assert [a] == [a] + [];
  }

  lemma PairDecoded(a: Byte, b: Byte)
    ensures A2b(Base64([a, b]), 0, 0, 0) == Some([a, b])
  {
    hide StandardChar;
    var g := Group(a, b, 0);
    assert Base64([a, b]) == [g[0], g[1]] + ([g[2]] + "=");
    TwoDecoded(a, b / 16, [g[2]] + "=");
    ThirdDecoded(b, 0, "=");
    assert A2b("=", 3, 0, 0) == Some([]);
    assert [a, b] == [a] + ([b] + []);
  }

  lemma {:induction false} Base64ReadBack(b: Bytes)
    ensures A2b(Base64(b), 0, 0, 0) == Some(b)
    decreases |b|
  {
    hide Group;
    if |b| == 1 {
      OneDecoded(b[0]);
      assert b == [b[0]];
    } else if |b| == 2 {
      PairDecoded(b[0], b[1]);
      assert b == [b[0], b[1]];
    } else if |b| > 2 {
      GroupDecoded(b[0], b[1], b[2], Base64(b[3..]));
      Base64ReadBack(b[3..]);
      assert b == [b[0]] + ([b[1]] + ([b[2]] + b[3..]));
    }
  }

  // ---------------------------------------------------------------- padding

  /** The encoding before padding. */
  function Plain(b: Bytes): string {
    if |b| == 0 then ""
    else if |b| == 1 then Group(b[0], 0, 0)[..2]
    else if |b| == 2 then Group(b[0], b[1], 0)[..3]
    else Group(b[0], b[1], b[2]) + Plain(b[3..])
  }

  /** What was stripped is what the length of the rest says must be put back. */
  lemma {:induction false} PaddingFromLength(b: Bytes)
    ensures Base64(b) == Plain(b) + Padding(Plain(b))
    decreases |b|
  {
    hide StandardChar;
    if |b| > 2 {
      PaddingFromLength(b[3..]);
      var rest := Plain(b[3..]);
      assert -|Plain(b)| % 4 == -|rest| % 4;
      assert Group(b[0], b[1], b[2]) + (rest + Padding(rest)) == Plain(b) + Padding(rest);
    } else if |b| == 0 {
      assert Plain(b) + Padding(Plain(b)) == "";
    }
  }

  lemma {:induction false} PlainChars(b: Bytes)
    ensures forall i :: 0 <= i < |Plain(b)| ==>
      Plain(b)[i] != '=' && Unsafe(UrlSafe(Plain(b)[i])) == Plain(b)[i] && IsTokenChar(UrlSafe(Plain(b)[i]))
    decreases |b|
  {
    if |b| == 1 {
      GroupChars(b[0], 0, 0);
    } else if |b| == 2 {
      GroupChars(b[0], b[1], 0);
    } else if |b| > 2 {
      GroupChars(b[0], b[1], b[2]);
      PlainChars(b[3..]);
    }
  }

  lemma GroupChars(a: Byte, b: Byte, c: Byte)
    ensures forall i :: 0 <= i < 4 ==>
      var x := Group(a, b, c)[i];
      x != '=' && Unsafe(UrlSafe(x)) == x && IsTokenChar(UrlSafe(x))
  {
    AlphabetReadBack(a / 4);
    AlphabetReadBack(a % 4 * 16 + b / 16);
    AlphabetReadBack(b % 16 * 4 + c / 64);
    AlphabetReadBack(c % 64);
  }

  lemma {:induction false} StripsAll(s: string, n: nat)
    requires s == [] || s[|s| - 1] != '='
    ensures WithoutPadding(s + Repeat('=', n)) == s
  {
    if n > 0 {
      assert (s + Repeat('=', n))[..|s| + n - 1] == s + Repeat('=', n - 1);
      StripsAll(s, n - 1);
    } else {
      assert s + Repeat('=', n) == s;
    }
  }

  // ---------------------------------------------------------------- the three builders

  function EncodeToken(token: string): string {
    WithoutPadding(Each(UrlSafe, Base64(Utf8(token))))
  }

  /** `build_websocket_token_protocol`. */
  function BuildProtocol(token: string): string {
    WEBSOCKET_TOKEN_PREFIX + EncodeToken(token)
  }

  lemma EachAppend(f: char -> char, s: string, t: string)
    ensures Each(f, s + t) == Each(f, s) + Each(f, t)
  {
  }

  /** Stripping the translated encoding leaves the translation of the unpadded one. */
  lemma StrippedTranslation(b: Bytes)
    ensures WithoutPadding(Each(UrlSafe, Base64(b))) == Each(UrlSafe, Plain(b))
    ensures forall i :: 0 <= i < |Plain(b)| ==> IsTokenChar(Each(UrlSafe, Plain(b))[i])
  {
    hide Base64, Plain, WithoutPadding, UrlSafe, Unsafe, IsTokenChar;
    PaddingFromLength(b);
    EachAppend(UrlSafe, Plain(b), Padding(Plain(b)));
    SafePadding(-|Plain(b)| % 4);
    PlainChars(b);
    LastIsNotPadding(b);
    StripsAll(Each(UrlSafe, Plain(b)), -|Plain(b)| % 4);
  }

  lemma SafePadding(n: nat)
    ensures Each(UrlSafe, Repeat('=', n)) == Repeat('=', n)
    ensures Each(Unsafe, Repeat('=', n)) == Repeat('=', n)
  {
  }

  lemma LastIsNotPadding(b: Bytes)
    ensures var s := Each(UrlSafe, Plain(b)); s == [] || s[|s| - 1] != '='
  {
    hide Plain;
    PlainChars(b);
  }

  /** The token part of the name is in the URL-safe alphabet: no padding, comma or white space. */
  lemma EncodedChars(token: string)
    ensures forall i :: 0 <= i < |EncodeToken(token)| ==> IsTokenChar(EncodeToken(token)[i])
  {
    hide Plain, Base64, UrlSafe, IsTokenChar, WithoutPadding;
    StrippedTranslation(Utf8(token));
  }

  lemma TranslatedBack(b: Bytes)
    ensures Each(Unsafe, Each(UrlSafe, Plain(b)) + Padding(Plain(b))) == Base64(b)
  {
    hide Base64, Plain, Each;
    PaddingFromLength(b);
    PlainSurvives(b);
    ThereAndBack(Plain(b), -|Plain(b)| % 4);
  }

  lemma PlainSurvives(b: Bytes)
    ensures forall i :: 0 <= i < |Plain(b)| ==> Unsafe(UrlSafe(Plain(b)[i])) == Plain(b)[i]
  {
    hide Plain, UrlSafe, Unsafe, IsTokenChar;
    PlainChars(b);
  }

  lemma ThereAndBack(s: string, n: nat)
    requires forall i :: 0 <= i < |s| ==> Unsafe(UrlSafe(s[i])) == s[i]
    ensures Each(Unsafe, Each(UrlSafe, s) + Repeat('=', n)) == s + Repeat('=', n)
  {
    hide UrlSafe, Unsafe, Each;
    EachAppend(Unsafe, Each(UrlSafe, s), Repeat('=', n));
    SafePadding(n);
    assert Each(Unsafe, Each(UrlSafe, s)) == s;
  }

  lemma TokenCharsAreAscii(s: string, n: nat)
    requires forall i :: 0 <= i < |s| ==> IsTokenChar(s[i])
    ensures IsAscii(s + Repeat('=', n))
  {
  }

  /** Decoding what encoding stripped and translated gives the bytes back. */
  lemma EncodedReadBack(token: string)
    ensures UrlSafeDecode(EncodeToken(token) + Padding(EncodeToken(token))) == Some(Utf8(token))
  {
    hide A2b, Base64, Plain, Each, UrlSafe, Unsafe, WithoutPadding, IsTokenChar, IsAscii;
    var b := Utf8(token);
    var encoded := EncodeToken(token);
    StrippedTranslation(b);
    EncodedChars(token);
    TokenCharsAreAscii(encoded, -|encoded| % 4);
    TranslatedBack(b);
    Base64ReadBack(b);
  }

  // ---------------------------------------------------------------- header lists

  function Split(s: string): (parts: seq<string>)
    ensures parts != []
  {
    if s == [] then [""]
    else if s[0] == ',' then [""] + Split(s[1..])
    else
      var rest := Split(s[1..]);
      [[s[0]] + rest[0]] + rest[1..]
  }

  function Join(parts: seq<string>): string
    requires parts != []
  {
    if |parts| == 1 then parts[0] else parts[0] + "," + Join(parts[1..])
  }

  lemma {:induction false} SplitOfOne(part: string)
    requires ',' !in part
    ensures Split(part) == [part]
  {
    if part != [] {
      SplitOfOne(part[1..]);
      assert [part[0]] + part[1..] == part;
    }
  }

  lemma {:induction false} SplitFirst(part: string, rest: string)
    requires ',' !in part
    ensures Split(part + "," + rest) == [part] + Split(rest)
  {
    var s := part + "," + rest;
    if part == [] {
      assert s == "," + rest && s[1..] == rest;
    } else {
      SplitFirst(part[1..], rest);
      assert s[1..] == part[1..] + "," + rest;
      assert [part[0]] + part[1..] == part;
    }
  }

  lemma {:induction false} SplitJoined(parts: seq<string>)
    requires parts != [] && forall i :: 0 <= i < |parts| ==> ',' !in parts[i]
    ensures Split(Join(parts)) == parts
  {
    if |parts| == 1 {
      SplitOfOne(parts[0]);
    } else {
      SplitJoined(parts[1..]);
      SplitFirst(parts[0], Join(parts[1..]));
    }
  }

  // ---------------------------------------------------------------- extraction

  predicate HasPrefix(name: string) {
    WEBSOCKET_TOKEN_PREFIX <= name
  }

  /** The encoded token of the first name with the prefix, or nothing. */
  function FirstToken(parts: seq<string>): string {
    if parts == [] then ""
    else if HasPrefix(PyStrip(parts[0])) then PyStrip(parts[0])[|WEBSOCKET_TOKEN_PREFIX|..]
    else FirstToken(parts[1..])
  }

  function DecodeToken(encoded: string): string {
    match UrlSafeDecode(encoded + Padding(encoded))
    case None => ""
    case Some(bytes) => match DecodeUtf8(bytes) case None => "" case Some(text) => text
  }

  /** `extract_websocket_protocol_token`. */
  function ExtractToken(header: Option<string>): string {
    var encoded := FirstToken(Split(if header.Some? then header.value else ""));
    if encoded == "" then "" else DecodeToken(encoded)
  }

  lemma {:induction false} FirstTokenFound(parts: seq<string>, at: nat, name: string)
    requires at < |parts| && PyStrip(parts[at]) == WEBSOCKET_TOKEN_PREFIX + name
    requires forall i :: 0 <= i < at ==> !HasPrefix(PyStrip(parts[i]))
    ensures FirstToken(parts) == name
  {
    hide PyStrip;
    if at > 0 {
      FirstTokenFound(parts[1..], at - 1, name);
    }
  }

  /** An empty encoding is the encoding of the empty token only. */
  lemma OnlyEmptyIsEmpty(token: string)
    ensures EncodeToken(token) == "" ==> token == ""
  {
    hide UrlSafeDecode, EncodeToken, Utf8, DecodeUtf8;
    EncodedReadBack(token);
    TextReadBack(token);
    TextReadBack("");
    EmptyDecodes();
  }

  lemma EmptyDecodes()
    ensures UrlSafeDecode("" + Padding("")) == Some(Utf8(""))
  {
    assert "" + Padding("") == "";
  }

  /**
   The round trip: whatever comma-free names surround it, with any white space, a header that lists the
   built name before any other name with the prefix yields the token itself.
   */
  lemma ExtractsBuiltToken(token: string, parts: seq<string>, at: nat)
    requires at < |parts| && forall i :: 0 <= i < |parts| ==> ',' !in parts[i]
    requires PyStrip(parts[at]) == BuildProtocol(token)
    requires forall i :: 0 <= i < at ==> !HasPrefix(PyStrip(parts[i]))
    ensures ExtractToken(Some(Join(parts))) == token
  {
    hide PyStrip, EncodeToken, DecodeToken, Split, Join, FirstToken, HasPrefix;
    SplitJoined(parts);
    FirstTokenFound(parts, at, EncodeToken(token));
    OnlyEmptyIsEmpty(token);
    TokenReadBack(token);
  }

  lemma TokenReadBack(token: string)
    ensures DecodeToken(EncodeToken(token)) == token
  {
    hide EncodeToken, UrlSafeDecode, Utf8, DecodeUtf8, Padding;
    EncodedReadBack(token);
    TextReadBack(token);
  }

  /** No part with the prefix: no token. */
  lemma {:induction false} NothingToExtract(parts: seq<string>)
    requires parts != [] && forall i :: 0 <= i < |parts| ==> ',' !in parts[i] && !HasPrefix(PyStrip(parts[i]))
    ensures ExtractToken(Some(Join(parts))) == "" && ExtractToken(None) == ""
  {
    hide PyStrip, HasPrefix;
    SplitJoined(parts);
    NoFirstToken(parts);
    ShortName();
  }

  lemma ShortName()
    ensures Split("") == [""] && FirstToken([""]) == ""
  {
  }

  lemma {:induction false} NoFirstToken(parts: seq<string>)
    requires forall i :: 0 <= i < |parts| ==> !HasPrefix(PyStrip(parts[i]))
    ensures FirstToken(parts) == ""
  {
    hide PyStrip, HasPrefix;
    if parts != [] {
      NoFirstToken(parts[1..]);
    }
  }

  // ---------------------------------------------------------------- the browser and the deployment check

  function Swap(from: char, to: char): char -> char {
    c => if c == from then to else c
  }

  /** `buildWebSocketProtocols`: the two `replace` calls one after the other. */
  function JsProtocols(token: string): Option<seq<string>> {
    var normalized := JsTrim(token);
    if normalized == "" then None
    else
      var swapped := Each(Swap('/', '_'), Each(Swap('+', '-'), Base64(Utf8(normalized))));
      Some([WEBSOCKET_PROTOCOL, WEBSOCKET_TOKEN_PREFIX + WithoutPadding(swapped)])
  }

  /** `websocket_protocols` of the deployment check. */
  function PyProtocols(token: string): Option<seq<string>> {
    if PyStrip(token) == "" then None
    else Some([WEBSOCKET_PROTOCOL, BuildProtocol(PyStrip(token))])
  }

  lemma {:induction false} TwoSwaps(s: string)
    ensures Each(Swap('/', '_'), Each(Swap('+', '-'), s)) == Each(UrlSafe, s)
  {
    if s != [] {
      TwoSwaps(s[1..]);
    }
  }

  lemma JsBuildsSameName(token: string)
    ensures JsProtocols(token) ==
      if JsTrim(token) == "" then None else Some([WEBSOCKET_PROTOCOL, BuildProtocol(JsTrim(token))])
  {
    hide JsTrim, Base64, Utf8, WithoutPadding;
    TwoSwaps(Base64(Utf8(JsTrim(token))));
  }

  /** Different tokens have different names. */
  lemma BuildIsInjective(a: string, b: string)
    ensures BuildProtocol(a) == BuildProtocol(b) ==> a == b
  {
    hide EncodeToken, UrlSafeDecode, Utf8, DecodeUtf8;
    EncodedReadBack(a);
    EncodedReadBack(b);
    TextReadBack(a);
    TextReadBack(b);
    if BuildProtocol(a) == BuildProtocol(b) {
      assert BuildProtocol(a)[|WEBSOCKET_TOKEN_PREFIX|..] == EncodeToken(a);
      assert BuildProtocol(b)[|WEBSOCKET_TOKEN_PREFIX|..] == EncodeToken(b);
    }
  }

  /**
   The two clients offer the same names exactly when the token, without the white space both languages
   know, is empty or neither begins nor ends with white space only one of them knows.
   */
  lemma ClientsAgreeIff(token: string)
    ensures
      var m := CommonTrim(token);
      JsProtocols(token) == PyProtocols(token) <==> m == "" || (!OneSided(m[0]) && !OneSided(m[|m| - 1]))
  {
    hide JsTrim, PyStrip, BuildProtocol, JsProtocols, PyProtocols, CommonTrim;
    ClientsAgreeIffTrimsAgree(token);
    TrimsAgreeIff(token);
  }

  /** The names differ as soon as the trimmed tokens do. */
  lemma ClientsAgreeIffTrimsAgree(token: string)
    ensures JsProtocols(token) == PyProtocols(token) <==> JsTrim(token) == PyStrip(token)
  {
    hide JsTrim, PyStrip, BuildProtocol, JsProtocols;
    JsBuildsSameName(token);
    BuildIsInjective(JsTrim(token), PyStrip(token));
    if JsProtocols(token) == PyProtocols(token) && JsTrim(token) != "" {
      assert JsProtocols(token).value[1] == PyProtocols(token).value[1];
    }
  }

  lemma TrimsDiffer()
    ensures JsTrim("\U{FEFF}k") == "k" && PyStrip("\U{FEFF}k") == "\U{FEFF}k"
    ensures JsTrim("\U{001C}k") == "\U{001C}k" && PyStrip("\U{001C}k") == "k"
  {
    assert "\U{FEFF}k"[1..] == "k" && "\U{001C}k"[1..] == "k";
  }

  lemma NameHasNoComma(token: string)
    ensures ',' !in BuildProtocol(token)
  {
    EncodedChars(token);
  }

  /** The header a browser sends: the offered names, each after a comma and a space. */
  function BrowserHeader(names: seq<string>): string
    requires |names| == 2
  {
    names[0] + ", " + names[1]
  }

  lemma NameSurvivesStrip(token: string)
    ensures PyStrip(" " + BuildProtocol(token)) == BuildProtocol(token)
  {
    hide EncodeToken;
    EncodedChars(token);
    var name := BuildProtocol(token);
    assert (" " + name)[1..] == name;
    assert name[0] == 'm';
    assert !PySpace(name[|name| - 1]) by {
      var encoded := EncodeToken(token);
      if encoded != [] {
        assert name[|name| - 1] == encoded[|encoded| - 1];
      } else {
        assert name == WEBSOCKET_TOKEN_PREFIX;
      }
    }
    assert Trim(PySpace, " " + name) == Trim(PySpace, name);
    assert Trim(PySpace, name) == name;
  }

  /** What the browser offers, the backend reads: the trimmed token. */
  lemma BrowserToBackend(token: string)
    requires JsTrim(token) != ""
    ensures JsProtocols(token).Some? && |JsProtocols(token).value| == 2
    ensures ExtractToken(Some(BrowserHeader(JsProtocols(token).value))) == JsTrim(token)
  {
    hide JsTrim, ExtractToken, JsProtocols, BuildProtocol, PyStrip, HasPrefix;
    var text := JsTrim(token);
    JsBuildsSameName(token);
    var parts := [WEBSOCKET_PROTOCOL, " " + BuildProtocol(text)];
    NameHasNoComma(text);
    NameSurvivesStrip(text);
    PlainNameHasNoPrefix();
    assert Join(parts) == BrowserHeader(JsProtocols(token).value);
    ExtractsBuiltToken(text, parts, 1);
  }

  lemma PlainNameHasNoPrefix()
    ensures !HasPrefix(PyStrip(WEBSOCKET_PROTOCOL)) && ',' !in WEBSOCKET_PROTOCOL
  {
    assert PyStrip(WEBSOCKET_PROTOCOL) == WEBSOCKET_PROTOCOL;
  }

  // ---------------------------------------------------------------- known encodings

  /** Examples of section 10 of RFC 4648, and the two characters of section 5. */
  lemma KnownEncodings()
    ensures Base64([102]) == "Zg==" && Base64([102, 111]) == "Zm8="
    ensures Base64([102, 111, 111, 98, 97, 114]) == "Zm9vYmFy" && Each(UrlSafe, Base64([251, 255])) == "-_8="
  {
    KnownGroups();
    assert [102, 111, 111, 98, 97, 114][3..] == [98, 97, 114] && [98, 97, 114][3..] == [];
    assert Base64([251, 255]) == "+/8=";
  }

  lemma KnownGroups()
    ensures Group(102, 111, 111) == "Zm9v" && Group(98, 97, 114) == "YmFy"
  {
  }

  /** One character of each length, as in section 7 of RFC 3629. */
  lemma KnownUtf8()
    ensures EncodeChar('A') == [0x41] && EncodeChar('\U{00E9}') == [0xC3, 0xA9]
    ensures EncodeChar('\U{65E5}') == [0xE6, 0x97, 0xA5] && EncodeChar('\U{233B4}') == [0xF0, 0xA3, 0x8E, 0xB4]
  {
  }
}
