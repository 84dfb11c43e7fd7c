/**
  Go strings as byte sequences: UTF-8 validity, white-space trimming and the
  normalizers that admit text into the store.
 */
module Text {
  import opened Wrappers

  type byte = x: int | 0 <= x < 256

  type Bytes = seq<byte>

  /** The UTF-8 encodings, by length, of the code points that `unicode.IsSpace` accepts. */
  predicate SpaceByte(a: byte) {
    9 <= a <= 13 || a == 32
  }

  predicate SpacePair(a: byte, b: byte) {
    a == 0xC2 && (b == 0x85 || b == 0xA0)
  }

  predicate SpaceTriple(a: byte, b: byte, c: byte) {
    || (a == 0xE1 && b == 0x9A && c == 0x80)
    || (a == 0xE2 && b == 0x80 && (0x80 <= c <= 0x8A || c == 0xA8 || c == 0xA9 || c == 0xAF))
    || (a == 0xE2 && b == 0x81 && c == 0x9F)
    || (a == 0xE3 && b == 0x80 && c == 0x80)
  }

  /** Width in bytes of the white-space rune `s` begins with, or 0. */
  function SpaceAtStart(s: Bytes): (width: nat)
    ensures width <= |s|
  {
    if |s| >= 1 && SpaceByte(s[0]) then 1
    else if |s| >= 2 && SpacePair(s[0], s[1]) then 2
    else if |s| >= 3 && SpaceTriple(s[0], s[1], s[2]) then 3
    else 0
  }

  /** Width in bytes of the white-space rune `s` ends with, or 0. */
  function SpaceAtEnd(s: Bytes): (width: nat)
    ensures width <= |s|
  {
    var n := |s|;
    if n >= 1 && SpaceByte(s[n - 1]) then 1
    else if n >= 2 && SpacePair(s[n - 2], s[n - 1]) then 2
    else if n >= 3 && SpaceTriple(s[n - 3], s[n - 2], s[n - 1]) then 3
    else 0
  }

  function TrimLeft(s: Bytes): Bytes
    decreases |s|
  {
    if SpaceAtStart(s) == 0 then s else TrimLeft(s[SpaceAtStart(s)..])
  }

  function TrimRight(s: Bytes): Bytes
    decreases |s|
  {
    if SpaceAtEnd(s) == 0 then s else TrimRight(s[..|s| - SpaceAtEnd(s)])
  }

  function TrimSpace(s: Bytes): Bytes
  {
    TrimRight(TrimLeft(s))
  }

  lemma {:induction false} TrimLeftStarts(s: Bytes)
    ensures |TrimLeft(s)| <= |s| && SpaceAtStart(TrimLeft(s)) == 0
    decreases |s|
  {
    hide SpaceAtStart;
    if SpaceAtStart(s) > 0 {
      TrimLeftStarts(s[SpaceAtStart(s)..]);
    }
  }

  lemma {:induction false} TrimRightEnds(s: Bytes)
    ensures TrimRight(s) <= s && SpaceAtEnd(TrimRight(s)) == 0
    decreases |s|
  {
    hide SpaceAtEnd;
    if SpaceAtEnd(s) > 0 {
      TrimRightEnds(s[..|s| - SpaceAtEnd(s)]);
    }
  }

  lemma PrefixStartsAlike(t: Bytes, s: Bytes)
    requires t <= s && SpaceAtStart(s) == 0
    ensures SpaceAtStart(t) == 0
  {}

  /** No white-space rune is left at either end, and trimming again changes nothing. */
  lemma TrimIdempotent(s: Bytes)
    ensures SpaceAtStart(TrimSpace(s)) == 0 && SpaceAtEnd(TrimSpace(s)) == 0
    ensures TrimSpace(TrimSpace(s)) == TrimSpace(s)
  {
    hide SpaceAtStart, SpaceAtEnd;
    var t := TrimLeft(s);
    TrimLeftStarts(s);
    TrimRightEnds(t);
    PrefixStartsAlike(TrimRight(t), t);
  }

  lemma TrimFixed(s: Bytes)
    ensures TrimSpace(s) == s <==> SpaceAtStart(s) == 0 && SpaceAtEnd(s) == 0
  {
    hide SpaceAtStart, SpaceAtEnd;
    TrimIdempotent(s);
  }

  /** `s` is white-space runes from its start, or from its end, on. */
  predicate Blank(s: Bytes)
    decreases |s|
  {
    s == [] || (SpaceAtStart(s) > 0 && Blank(s[SpaceAtStart(s)..]))
  }

  predicate BlankBackwards(s: Bytes)
    decreases |s|
  {
    s == [] || (SpaceAtEnd(s) > 0 && BlankBackwards(s[..|s| - SpaceAtEnd(s)]))
  }

  lemma {:induction false} TrimLeftCuts(s: Bytes)
    ensures |TrimLeft(s)| <= |s| && s[|s| - |TrimLeft(s)|..] == TrimLeft(s) && Blank(s[..|s| - |TrimLeft(s)|])
    decreases |s|
  {
    var width := SpaceAtStart(s);
    if width > 0 {
      TrimLeftCuts(s[width..]);
      var cut := |s| - |TrimLeft(s)|;
      assert s[..cut][width..] == s[width..][..cut - width];
      assert SpaceAtStart(s[..cut]) == width;
    }
  }

  lemma {:induction false} TrimRightCuts(s: Bytes)
    ensures |TrimRight(s)| <= |s| && s[..|TrimRight(s)|] == TrimRight(s) && BlankBackwards(s[|TrimRight(s)|..])
    decreases |s|
  {
    var width := SpaceAtEnd(s);
    if width > 0 {
      TrimRightCuts(s[..|s| - width]);
      var kept := |TrimRight(s)|;
      assert s[kept..][..|s| - kept - width] == s[..|s| - width][kept..];
      assert SpaceAtEnd(s[kept..]) == width;
    }
  }

  /** Trimming cuts white space from both ends and nothing else. */
  lemma TrimCuts(s: Bytes) returns (low: nat, high: nat)
    ensures low <= high <= |s| && TrimSpace(s) == s[low..high]
    ensures Blank(s[..low]) && BlankBackwards(s[high..])
  {
    hide Blank, BlankBackwards, SpaceAtStart, SpaceAtEnd;
    TrimLeftCuts(s);
    TrimRightCuts(TrimLeft(s));
    low := |s| - |TrimLeft(s)|;
    high := low + |TrimSpace(s)|;
    assert s[low..][|TrimSpace(s)|..] == s[high..];
  }

  predicate Continuation(b: byte) {
    0x80 <= b <= 0xBF
  }

  /** Width of the well-formed rune `s` begins with (RFC 3629, section 4), or 0. */
  function RuneWidth(s: Bytes): (width: nat)
    requires s != []
    ensures width <= |s|
  {
    if s[0] < 0x80 then 1
    else if |s| >= 2 && 0xC2 <= s[0] <= 0xDF && Continuation(s[1]) then 2
    else if |s| >= 3 && Continuation(s[2])
            && ((s[0] == 0xE0 && 0xA0 <= s[1] <= 0xBF)
                || ((0xE1 <= s[0] <= 0xEC || 0xEE <= s[0] <= 0xEF) && Continuation(s[1]))
                || (s[0] == 0xED && 0x80 <= s[1] <= 0x9F)) then 3
    else if |s| >= 4 && Continuation(s[2]) && Continuation(s[3])
            && ((s[0] == 0xF0 && 0x90 <= s[1] <= 0xBF)
                || (0xF1 <= s[0] <= 0xF3 && Continuation(s[1]))
                || (s[0] == 0xF4 && 0x80 <= s[1] <= 0x8F)) then 4
    else 0
  }

  predicate ValidUtf8(s: Bytes)
    decreases |s|
  {
    s == [] || (RuneWidth(s) > 0 && ValidUtf8(s[RuneWidth(s)..]))
  }

  predicate ValidText(s: Bytes) {
    ValidUtf8(s) && 0 !in s
  }

  const MAX_MESSAGE_TEXT := 16 * 1024
  const MAX_KEY := 255
  const MAX_GOAL := 2_000
  const MAX_WORK_MESSAGE := 60 * 1024
  const MAX_UNDERSTANDING := 60 * 1024
  const MAX_NEXT_STEP := 8 * 1024

  /** What every stored text of at most `max` bytes satisfies. */
  predicate Admitted(t: Bytes, max: nat) {
    t != [] && |t| <= max && ValidText(t)
  }

  /**
    The shape shared by `NormalizeText`, `NormalizeGoal`, `NormalizeIdempotencyKey`
    and `ValidateUnderstandingUpdate`: trim, then bound and validate what is left.
   */
  function Normalize(value: Bytes, max: nat): Option<Bytes>
  {
    var t := TrimSpace(value);
    if t == [] || |t| > max || !ValidText(t) then None else Some(t)
  }

  /** Exactly text of which something is left within the limit, valid and without NUL, is admitted, as trimmed. */
  lemma NormalizeIff(value: Bytes, max: nat)
    ensures Normalize(value, max) ==
      if 0 < |TrimSpace(value)| <= max && ValidUtf8(TrimSpace(value)) && 0 !in TrimSpace(value) then Some(TrimSpace(value))
      else None
  {
    hide TrimSpace, ValidUtf8;
  }

  /** Normalized text is admitted and a fixed point, so a peer that re-normalizes it sees no change. */
  lemma NormalizeIdempotent(value: Bytes, max: nat)
    requires Normalize(value, max).Some?
    ensures Admitted(Normalize(value, max).value, max)
    ensures Normalize(Normalize(value, max).value, max) == Normalize(value, max)
  {
    hide TrimSpace, ValidText;
    TrimIdempotent(value);
  }
}
