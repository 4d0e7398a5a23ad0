/** Mail local parts in modules/agentmailgateway/provisioning.go: the byte loop of the sanitiser and the
    fallback of the normaliser. What strings.TrimSpace and strings.ToLower do to Unicode is a parameter;
    all that is needed of them is that they leave lower-case ASCII words alone. */
module Localpart {
  import opened Prelude

  const LOCALPART_LIMIT := 64

  const DASH: byte := 45
  const DOT: byte := 46
  const UNDERSCORE: byte := 95

  predicate Alphanumeric(ch: byte) {
    97 <= ch <= 122 || 48 <= ch <= 57
  }

  predicate Trailing(ch: byte) {
    ch == DOT || ch == DASH || ch == UNDERSCORE
  }

  // ------------------------------------------------------- Dot-string, section 4.1.2 of RFC 5321

  /** atext of RFC 5322, section 3.2.3. */
  predicate Atext(ch: byte) {
    || 65 <= ch <= 90 || 97 <= ch <= 122 || 48 <= ch <= 57
    || ch in [33, 35, 36, 37, 38, 39, 42, 43, 45, 47, 61, 63, 94, 95, 96, 123, 124, 125, 126]
  }

  predicate Atom(s: seq<byte>) {
    s != [] && forall ch :: ch in s ==> Atext(ch)
  }

  /** Atom *("." Atom) */
  predicate DotString(s: seq<byte>) {
    Atom(s) || exists k :: 0 <= k < |s| && s[k] == DOT && Atom(s[..k]) && DotString(s[k + 1..])
  }

  predicate NoDoubleDot(s: seq<byte>) {
    forall i :: 0 < i < |s| ==> s[i - 1] != DOT || s[i] != DOT
  }

  /** The same by looking at neighbours: atext and dots, with a dot neither first, last nor doubled. */
  lemma {:induction false} NeighboursMakeDotString(s: seq<byte>)
    requires s != [] && s[0] != DOT && s[|s| - 1] != DOT && NoDoubleDot(s)
    requires forall ch :: ch in s ==> Atext(ch) || ch == DOT
    ensures DotString(s)
    decreases |s|
  {
    if DOT !in s {
    } else {
      var k := FirstDot(s);
      var rest := s[k + 1..];
      assert rest[0] == s[k + 1];
      forall i | 0 < i < |rest| ensures rest[i - 1] != DOT || rest[i] != DOT {
        var j := k + 1 + i;
        assert s[j - 1] != DOT || s[j] != DOT;
      }
      NeighboursMakeDotString(rest);
      assert Atom(s[..k]);
    }
  }

  lemma {:induction false} FirstDot(s: seq<byte>) returns (k: nat)
    requires DOT in s && s[0] != DOT && s[|s| - 1] != DOT
    ensures 0 < k < |s| - 1 && s[k] == DOT && DOT !in s[..k]
  {
    k := 0;
    while s[k] != DOT
      invariant k < |s| && DOT !in s[..k]
      decreases |s| - k
    {
      assert s == s[..k + 1] + s[k + 1..];
      assert s[..k + 1] == s[..k] + [s[k]];
      k := k + 1;
    }
  }

  // ------------------------------------------------------------------------------------ the byte loop

  datatype Scan = Scan(out: seq<byte>, lastDot: bool, lastWritten: byte) {
    function Put(ch: byte): Scan {
      Scan(out + [ch], ch == DOT, ch)
    }
  }

  /** One round of the loop, which stops once 64 bytes are written. */
  function Step(s: Scan, ch: byte): Scan {
    if |s.out| >= LOCALPART_LIMIT then s
    else if Alphanumeric(ch) then s.Put(ch)
    else if s.out == [] then s
    else if ch == DOT then (if s.lastDot then s else s.Put(DOT))
    else if ch == DASH || ch == UNDERSCORE then s.Put(ch)
    else if s.lastWritten != DASH then s.Put(DASH)
    else s.(lastDot := false)
  }

  function Scanned(value: seq<byte>): Scan {
    if value == [] then Scan([], false, 0) else Step(Scanned(value[..|value| - 1]), value[|value| - 1])
  }

  function TrimRight(s: seq<byte>): seq<byte> {
    if s == [] || !Trailing(s[|s| - 1]) then s else TrimRight(s[..|s| - 1])
  }

  function Clean(value: seq<byte>): seq<byte> {
    TrimRight(Scanned(value).out)
  }

  /** What the loop maintains about its output. */
  ghost predicate Tidy(out: seq<byte>) {
    && |out| <= LOCALPART_LIMIT
    && (forall i :: 0 <= i < |out| ==> Alphanumeric(out[i]) || Trailing(out[i]))
    && (out != [] ==> Alphanumeric(out[0]))
    && NoDoubleDot(out)
  }

  lemma {:induction false} ScannedIsTidy(value: seq<byte>)
    ensures var s := Scanned(value);
            && Tidy(s.out)
            && (s.out != [] ==> s.lastWritten == s.out[|s.out| - 1] && s.lastDot == (s.lastWritten == DOT))
            && (s.out == [] ==> !s.lastDot)
  {
    if value != [] {
      ScannedIsTidy(value[..|value| - 1]);
    }
  }

  lemma {:induction false} TrimRightIsPrefix(s: seq<byte>)
    ensures TrimRight(s) <= s
    ensures TrimRight(s) != [] ==> !Trailing(TrimRight(s)[|TrimRight(s)| - 1])
  {
    if s != [] && Trailing(s[|s| - 1]) {
      TrimRightIsPrefix(s[..|s| - 1]);
    }
  }

  /** Tidy, and with nothing to trim. */
  ghost predicate Settled(s: seq<byte>) {
    Tidy(s) && (s != [] ==> !Trailing(s[|s| - 1]))
  }

  lemma CleanIsSettled(value: seq<byte>)
    ensures Settled(Clean(value))
  {
    ScannedIsTidy(value);
    TrimRightIsPrefix(Scanned(value).out);
  }

  /** The loop copies a tidy string byte for byte. */
  lemma {:induction false} TidyIsKept(s: seq<byte>, n: nat)
    requires Tidy(s) && n <= |s|
    ensures Scanned(s[..n]).out == s[..n]
  {
    if n > 0 {
      TidyIsKept(s, n - 1);
      assert s[..n][..n - 1] == s[..n - 1] && s[..n] == s[..n - 1] + [s[n - 1]];
      ScannedIsTidy(s[..n - 1]);
    }
  }

  lemma SettledIsFixed(s: seq<byte>)
    requires Settled(s)
    ensures Clean(s) == s
  {
    TidyIsKept(s, |s|);
    assert s[..|s|] == s;
  }

  // -------------------------------------------------------------------------------- the sanitiser

  /** TrimSpace and ToLower as far as the sanitiser relies on them. */
  ghost predicate KeepsAscii(prepare: seq<byte> -> seq<byte>) {
    forall s :: Settled(s) ==> prepare(s) == s
  }

  function Sanitized(prepare: seq<byte> -> seq<byte>, value: seq<byte>): seq<byte> {
    Clean(prepare(value))
  }

  /** sanitizeGatewayLocalpart. */
  method SanitizeGatewayLocalpart(prepare: seq<byte> -> seq<byte>, raw: seq<byte>) returns (r: seq<byte>)
    ensures r == Sanitized(prepare, raw)
  {
    var value := prepare(raw);
    var out: seq<byte>, lastDot, lastWritten: byte := [], false, 0;
    var i := 0;
    while i < |value| && |out| < LOCALPART_LIMIT
      invariant i <= |value| && Scan(out, lastDot, lastWritten) == Scanned(value[..i])
      invariant |out| <= LOCALPART_LIMIT
      decreases |value| - i
    {
      var ch := value[i];
      assert value[..i + 1][..i] == value[..i];
      i := i + 1;
      if Alphanumeric(ch) {
        out, lastWritten, lastDot := out + [ch], ch, false;
        continue;
      }
      if out == [] {
        continue;
      }
      if ch == DOT {
        if !lastDot {
          out, lastWritten, lastDot := out + [ch], ch, true;
        }
      } else if ch == DASH || ch == UNDERSCORE {
        out, lastWritten, lastDot := out + [ch], ch, false;
      } else {
        if lastWritten != DASH {
          out, lastWritten := out + [DASH], DASH;
        }
        lastDot := false;
      }
    }
    FullStays(value, i);
    r := TrimRight(out);
  }

  lemma {:induction false} FullStays(value: seq<byte>, i: nat)
    requires i <= |value| && (i == |value| || |Scanned(value[..i]).out| >= LOCALPART_LIMIT)
    ensures Scanned(value) == Scanned(value[..i])
    decreases |value| - i
  {
    if i < |value| {
      assert value[..i + 1][..i] == value[..i];
      FullStays(value, i + 1);
    } else {
      assert value[..i] == value;
    }
  }

  /** On every byte string the sanitiser is idempotent, and its non-empty outputs are Dot-strings within
      the 64 octets of section 4.5.3.1.1 of RFC 5321. */
  lemma SanitizedIsALocalpart(prepare: seq<byte> -> seq<byte>, value: seq<byte>)
    requires KeepsAscii(prepare)
    ensures var s := Sanitized(prepare, value);
            && Sanitized(prepare, s) == s
            && |s| <= 64
            && (s != [] ==> DotString(s))
  {
    var s := Sanitized(prepare, value);
    CleanIsSettled(prepare(value));
    SettledIsFixed(s);
    if s != [] {
      SettledIsDotString(s);
    }
  }

  lemma SettledIsDotString(s: seq<byte>)
    requires Settled(s) && s != []
    ensures DotString(s)
  {
    assert forall ch :: ch in s ==> Atext(ch) || ch == DOT;
    NeighboursMakeDotString(s);
  }

  // -------------------------------------------------------------------- what is kept of the input

  predicate InWord(s: seq<byte>) {
    s != [] && Alphanumeric(s[|s| - 1])
  }

  /** The maximal runs of alphanumerics, in order. */
  function Words(s: seq<byte>): seq<seq<byte>> {
    if s == [] then []
    else
      var front, last := s[..|s| - 1], s[|s| - 1];
      var words := Words(front);
      if !Alphanumeric(last) then words
      else if InWord(front) && words != [] then words[..|words| - 1] + [words[|words| - 1] + [last]]
      else words + [[last]]
  }

  lemma WordsStep(s: seq<byte>, ch: byte)
    ensures var words := Words(s);
            Words(s + [ch]) ==
              if !Alphanumeric(ch) then words
              else if InWord(s) && words != [] then words[..|words| - 1] + [words[|words| - 1] + [ch]]
              else words + [[ch]]
  {
    assert (s + [ch])[..|s|] == s;
  }

  lemma StepKeepsWords(s: Scan, value: seq<byte>, ch: byte)
    requires Words(s.out) == Words(value) && InWord(s.out) == InWord(value) && |s.out| < LOCALPART_LIMIT
    requires s.out != [] ==> s.lastWritten == s.out[|s.out| - 1] && s.lastDot == (s.lastWritten == DOT)
    ensures var out := Step(s, ch).out;
            Words(out) == Words(value + [ch]) && InWord(out) == InWord(value + [ch])
  {
    WordsStep(value, ch);
    WordsStep(s.out, ch);
    WordsStep(s.out, DASH);
    hide Words;
  }

  /** Until 64 bytes are written the loop keeps every word, and apart from the next. */
  lemma {:induction false} ScannedKeepsWords(value: seq<byte>)
    requires value != [] ==> |Scanned(value[..|value| - 1]).out| < LOCALPART_LIMIT
    ensures var out := Scanned(value).out;
            Words(out) == Words(value) && InWord(out) == InWord(value)
  {
    if value == [] {
      assert Scanned(value).out == [];
    } else {
      var front, ch := value[..|value| - 1], value[|value| - 1];
      ScannedGrows(front);
      ScannedKeepsWords(front);
      ScannedIsTidy(front);
      StepKeepsWords(Scanned(front), front, ch);
      ScannedOne(front, ch);
      assert value == front + [ch];
      hide Words, InWord, Scanned, Step;
    }
  }

  lemma ScannedGrows(value: seq<byte>)
    ensures value != [] ==> |Scanned(value[..|value| - 1]).out| <= |Scanned(value).out|
  {
  }

  lemma {:induction false} TrimKeepsWords(s: seq<byte>)
    ensures Words(TrimRight(s)) == Words(s)
  {
    if s != [] && Trailing(s[|s| - 1]) {
      TrimKeepsWords(s[..|s| - 1]);
    }
  }

  /** Where the loop stops: at the end, or with 64 bytes written. */
  lemma {:induction false} StopsAt(value: seq<byte>) returns (i: nat)
    ensures i <= |value| && Scanned(value) == Scanned(value[..i])
    ensures i > 0 ==> |Scanned(value[..i - 1]).out| < LOCALPART_LIMIT
    ensures i < |value| ==> |Scanned(value).out| == LOCALPART_LIMIT
  {
    if value == [] {
      i := 0;
    } else {
      var front := value[..|value| - 1];
      i := StopsAt(front);
      ScannedIsTidy(front);
      if |Scanned(front).out| < LOCALPART_LIMIT {
        i := |value|;
        assert value[..i] == value && value[..i - 1] == front;
      } else {
        assert front[..i] == value[..i] && (i > 0 ==> front[..i - 1] == value[..i - 1]);
      }
    }
  }

  /** The sanitiser keeps the words of its input, in order and apart, and nothing else between them than
      separators: all of them, or those before the 64th byte. */
  lemma SanitizedKeepsWords(prepare: seq<byte> -> seq<byte>, value: seq<byte>) returns (i: nat, trimmed: seq<byte>)
    ensures var s, p := Sanitized(prepare, value), prepare(value);
            && i <= |p| && Words(s) == Words(p[..i])
            && (i < |p| ==> |s + trimmed| == 64 && forall ch :: ch in trimmed ==> Trailing(ch))
  {
    var p := prepare(value);
    i := StopsAt(p);
    if i > 0 {
      assert p[..i][..i - 1] == p[..i - 1];
    }
    ScannedKeepsWords(p[..i]);
    TrimKeepsWords(Scanned(p).out);
    trimmed := TrimmedOff(Scanned(p).out);
  }

  lemma {:induction false} TrimmedOff(s: seq<byte>) returns (trimmed: seq<byte>)
    ensures TrimRight(s) + trimmed == s && forall ch :: ch in trimmed ==> Trailing(ch)
  {
    if s != [] && Trailing(s[|s| - 1]) {
      var rest := TrimmedOff(s[..|s| - 1]);
      trimmed := rest + [s[|s| - 1]];
    } else {
      trimmed := [];
    }
  }

  /** Neither kept nor a separator. */
  predicate Foreign(ch: byte) {
    !Alphanumeric(ch) && !Trailing(ch)
  }

  lemma ScannedOne(value: seq<byte>, ch: byte)
    ensures Scanned(value + [ch]) == Step(Scanned(value), ch)
  {
    hide Step;
    assert (value + [ch])[..|value|] == value;
  }

  lemma SplitLast(value: seq<byte>, gap: seq<byte>)
    requires gap != []
    ensures value + gap == value + gap[..|gap| - 1] + [gap[|gap| - 1]]
  {
  }

  lemma ScannedStep(value: seq<byte>, gap: seq<byte>)
    requires gap != []
    ensures Scanned(value + gap) == Step(Scanned(value + gap[..|gap| - 1]), gap[|gap| - 1])
  {
    hide Step, Scanned;
    SplitLast(value, gap);
    ScannedOne(value + gap[..|gap| - 1], gap[|gap| - 1]);
  }

  /** The loop has just written the end of a word. */
  ghost predicate AtWordEnd(value: seq<byte>) {
    InWord(Scanned(value).out) && |Scanned(value).out| < LOCALPART_LIMIT
  }

  /** A run of dots after a word becomes one dot. */
  lemma {:induction false} DotsBecomeOne(value: seq<byte>, gap: seq<byte>)
    requires AtWordEnd(value) && gap != [] && forall i :: 0 <= i < |gap| ==> gap[i] == DOT
    ensures Scanned(value + gap).out == Scanned(value).out + [DOT]
  {
    var front := gap[..|gap| - 1];
    ScannedIsTidy(value);
    ScannedStep(value, gap);
    if |gap| == 1 {
      assert front == [] && value + front == value;
    } else {
      DotsBecomeOne(value, front);
      ScannedIsTidy(value + front);
    }
  }

  /** A run of bytes that are neither kept nor separators becomes one dash. */
  lemma {:induction false} ForeignBecomesDash(value: seq<byte>, gap: seq<byte>)
    requires AtWordEnd(value) && gap != [] && forall i :: 0 <= i < |gap| ==> Foreign(gap[i])
    ensures Scanned(value + gap).out == Scanned(value).out + [DASH]
  {
    var front := gap[..|gap| - 1];
    ScannedIsTidy(value);
    ScannedStep(value, gap);
    if |gap| == 1 {
      assert front == [] && value + front == value;
    } else {
      ForeignBecomesDash(value, front);
      ScannedIsTidy(value + front);
    }
  }

  /** Dashes and underscores stay as they are. */
  lemma {:induction false} DashesStay(value: seq<byte>, gap: seq<byte>)
    requires AtWordEnd(value) && |Scanned(value).out| + |gap| <= LOCALPART_LIMIT
    requires forall i :: 0 <= i < |gap| ==> gap[i] == DASH || gap[i] == UNDERSCORE
    ensures Scanned(value + gap).out == Scanned(value).out + gap
  {
    if gap == [] {
      assert value + gap == value;
    } else {
      var front := gap[..|gap| - 1];
      ScannedStep(value, gap);
      DashesStay(value, front);
      assert Scanned(value).out + front + [gap[|gap| - 1]] == Scanned(value).out + gap;
    }
  }

  // -------------------------------------------------------------------------------- the normaliser

  function HexDigit(n: int): byte
    requires 0 <= n < 16
  {
    if n < 10 then (48 + n) as byte else (87 + n) as byte
  }

  function Hex(s: seq<byte>): seq<byte> {
    if s == [] then [] else Hex(s[..|s| - 1]) + [HexDigit(s[|s| - 1] as int / 16), HexDigit(s[|s| - 1] as int % 16)]
  }

  /** "user-" */
  const FALLBACK_PREFIX: seq<byte> := [117, 115, 101, 114, 45]

  lemma {:induction false} HexIsAlphanumeric(s: seq<byte>)
    ensures |Hex(s)| == 2 * |s| && forall i :: 0 <= i < |Hex(s)| ==> Alphanumeric(Hex(s)[i])
  {
    if s != [] {
      HexIsAlphanumeric(s[..|s| - 1]);
    }
  }

  function HexValue(ch: byte): int {
    if ch <= 57 then ch as int - 48 else ch as int - 87
  }

  /** The digits read back as the bytes, high half first, so different digests give different names. */
  lemma {:induction false} HexReadsBack(s: seq<byte>, i: nat)
    requires i < |s|
    ensures |Hex(s)| == 2 * |s| && 16 * HexValue(Hex(s)[2 * i]) + HexValue(Hex(s)[2 * i + 1]) == s[i] as int
  {
    var m := |s| - 1;
    HexIsAlphanumeric(s);
    HexIsAlphanumeric(s[..m]);
    if i < m {
      HexReadsBack(s[..m], i);
      assert Hex(s)[..2 * m] == Hex(s[..m]);
      assert Hex(s)[2 * i] == Hex(s[..m])[2 * i] && Hex(s)[2 * i + 1] == Hex(s[..m])[2 * i + 1];
    }
  }

  /** strings.Join with a zero byte. */
  function JoinZero(candidates: seq<seq<byte>>): seq<byte> {
    if candidates == [] then []
    else if |candidates| == 1 then candidates[0]
    else candidates[0] + [0] + JoinZero(candidates[1..])
  }

  /** Candidates without zero bytes are kept apart: what is hashed tells them all. */
  lemma {:induction false} JoinKeepsApart(a: seq<seq<byte>>, b: seq<seq<byte>>)
    requires |a| == |b| && JoinZero(a) == JoinZero(b)
    requires forall i :: 0 <= i < |a| ==> 0 !in a[i] && 0 !in b[i]
    ensures a == b
  {
    if |a| == 1 {
      assert a == [a[0]] && b == [b[0]];
    } else if |a| > 1 {
      var x, y := JoinZero(a), JoinZero(b);
      assert x[|a[0]|] == 0 && y[|b[0]|] == 0;
      assert x[..|a[0]|] == a[0] && y[..|b[0]|] == b[0];
      assert forall i :: 0 <= i < |a[0]| ==> x[i] == a[0][i] && a[0][i] in a[0];
      assert forall i :: 0 <= i < |b[0]| ==> y[i] == b[0][i] && b[0][i] in b[0];
      assert a[0] == b[0];
      assert x[|a[0]| + 1..] == JoinZero(a[1..]) && y[|a[0]| + 1..] == JoinZero(b[1..]);
      JoinKeepsApart(a[1..], b[1..]);
      assert a == [a[0]] + a[1..] && b == [b[0]] + b[1..];
    }
  }

  /** The first candidate with anything left, or the digest name. */
  ghost predicate IsNormal(prepare: seq<byte> -> seq<byte>, digest: seq<byte> -> seq<byte>,
                           candidates: seq<seq<byte>>, r: seq<byte>)
    requires forall s :: 6 <= |digest(s)|
  {
    || (exists k :: 0 <= k < |candidates| && r == Sanitized(prepare, candidates[k]) != []
                    && forall j :: 0 <= j < k ==> Sanitized(prepare, candidates[j]) == [])
    || ((forall j :: 0 <= j < |candidates| ==> Sanitized(prepare, candidates[j]) == [])
        && r == FALLBACK_PREFIX + Hex(digest(JoinZero(candidates))[..6]))
  }

  /** normalizeGatewayLocalpart: never empty, a fixed point of the sanitiser, a valid local part. */
  method NormalizeGatewayLocalpart(prepare: seq<byte> -> seq<byte>, digest: seq<byte> -> seq<byte>,
                                   candidates: seq<seq<byte>>)
    returns (r: seq<byte>)
    requires KeepsAscii(prepare) && forall s :: 6 <= |digest(s)|
    ensures IsNormal(prepare, digest, candidates, r)
    ensures r != [] && Sanitized(prepare, r) == r && |r| <= 64 && DotString(r)
  {
    for i := 0 to |candidates|
      invariant forall j :: 0 <= j < i ==> Sanitized(prepare, candidates[j]) == []
    {
      var normalized := SanitizeGatewayLocalpart(prepare, candidates[i]);
      if normalized != [] {
        SanitizedIsALocalpart(prepare, candidates[i]);
        return normalized;
      }
    }
    var sum := digest(JoinZero(candidates));
    r := FALLBACK_PREFIX + Hex(sum[..6]);
    FallbackIsSettled(sum[..6]);
    SettledIsFixed(r);
    SettledIsDotString(r);
  }

  lemma FallbackIsSettled(s: seq<byte>)
    requires |s| == 6
    ensures Settled(FALLBACK_PREFIX + Hex(s))
  {
    HexIsAlphanumeric(s);
  }

  // ------------------------------------------------------------ the preparation on ASCII input

  predicate Space(ch: byte) {
    ch == 32 || 9 <= ch <= 13
  }

  function Lower(ch: byte): byte {
    if 65 <= ch <= 90 then ch + 32 else ch
  }

  function AsciiLower(s: seq<byte>): seq<byte> {
    seq(|s|, i requires 0 <= i < |s| => Lower(s[i]))
  }

  function AsciiTrim(s: seq<byte>): seq<byte> {
    if s == [] then []
    else if Space(s[0]) then AsciiTrim(s[1..])
    else if Space(s[|s| - 1]) then AsciiTrim(s[..|s| - 1])
    else s
  }

  function AsciiPrepare(s: seq<byte>): seq<byte> {
    AsciiLower(AsciiTrim(s))
  }

  /** What both library functions do to ASCII bytes satisfies the assumption. */
  lemma AsciiPrepareKeepsAscii()
    ensures KeepsAscii(AsciiPrepare)
  {
    forall s | Settled(s) ensures AsciiPrepare(s) == s {
      if s != [] {
        assert AsciiTrim(s) == s;
      }
      assert AsciiLower(s) == s;
    }
  }
}
