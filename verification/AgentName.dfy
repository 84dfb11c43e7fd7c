/** Agent display names: a family's name base and an ordinal, unique in a Space by their folded key. */
module AgentName {
  import opened Wrappers
  import opened Text

  const MAX_NAME_BASE := 96
  const MAX_NAME := 128

  /** No control character: C0, delete, or C1 in its two-byte form. */
  predicate NoControl(name: Bytes) {
    && (forall i :: 0 <= i < |name| ==> 32 <= name[i] && name[i] != 127)
    && (forall i :: 0 <= i < |name| - 1 ==> !(name[i] == 0xC2 && 0x80 <= name[i + 1] <= 0x9F))
  }

  predicate ValidName(name: Bytes, max: nat) {
    ValidUtf8(name) && name != [] && |name| <= max && TrimSpace(name) == name && NoControl(name)
  }

  /** `strconv.Itoa` of a positive number. */
  function Itoa(n: nat): (digits: Bytes)
    requires n > 0
    ensures digits != [] && forall i :: 0 <= i < |digits| ==> 48 <= digits[i] <= 57
  {
    (if n < 10 then [] else Itoa(n / 10)) + [48 + n % 10]
  }

  function FromDigits(digits: Bytes): int {
    if digits == [] then 0 else FromDigits(digits[..|digits| - 1]) * 10 + digits[|digits| - 1] as int - 48
  }

  lemma {:induction false} ItoaRoundTrip(n: nat)
    requires n > 0
    ensures FromDigits(Itoa(n)) == n
  {
    if n >= 10 {
      ItoaRoundTrip(n / 10);
      assert Itoa(n)[..|Itoa(n)| - 1] == Itoa(n / 10);
    } else {
      assert Itoa(n)[..0] == [];
      assert FromDigits([]) == 0;
    }
  }

  function Pow10(width: nat): nat {
    if width == 0 then 1 else 10 * Pow10(width - 1)
  }

  lemma {:induction false} ItoaLength(n: nat, width: nat)
    requires 0 < n < Pow10(width)
    ensures |Itoa(n)| <= width
  {
    if n >= 10 {
      ItoaLength(n / 10, width - 1);
    }
  }

  lemma SixtyFourBits()
    ensures Pow10(19) > 0x7FFF_FFFF_FFFF_FFFF
  {
    assert Pow10(4) == 10_000;
    assert Pow10(8) == 100_000_000;
    assert Pow10(12) == 1_000_000_000_000;
    assert Pow10(16) == 10_000_000_000_000_000;
  }

  /** The ASCII part of case folding: upper-case letters become lower-case. */
  function Fold(name: Bytes): (key: Bytes)
    ensures |key| == |name|
  {
    seq(|name|, i requires 0 <= i < |name| => if 65 <= name[i] <= 90 then name[i] + 32 else name[i])
  }

  predicate SameLetter(a: byte, b: byte) {
    a == b || (65 <= a <= 90 && b == a + 32) || (65 <= b <= 90 && a == b + 32)
  }

  /** Two names fold to one key exactly when they are equal up to the case of ASCII letters. */
  lemma FoldsAlike(a: Bytes, b: Bytes)
    ensures Fold(a) == Fold(b) <==> |a| == |b| && forall i :: 0 <= i < |a| ==> SameLetter(a[i], b[i])
  {
    if Fold(a) == Fold(b) {
      forall i | 0 <= i < |a| ensures SameLetter(a[i], b[i]) {
        assert Fold(a)[i] == Fold(b)[i];
      }
    }
  }

  /** The display name a base and an ordinal make. */
  function NameOf(base: Bytes, ordinal: nat): Bytes
    requires ordinal > 0
  {
    if ordinal == 1 then base else base + [32] + Itoa(ordinal)
  }

  function KeyOf(base: Bytes, ordinal: nat): Bytes
    requires ordinal > 0
  {
    Fold(NameOf(base, ordinal))
  }

  datatype Name = Name(text: Bytes, key: Bytes)

  function NameForOrdinal(base: Bytes, ordinal: int): Option<Name> {
    if !ValidName(base, MAX_NAME_BASE) || ordinal <= 0 then None
    else if !ValidName(NameOf(base, ordinal), MAX_NAME) then None
    else Some(Name(NameOf(base, ordinal), KeyOf(base, ordinal)))
  }

  /** A control character starts here: C0 or delete, or C1 in its two-byte form. */
  predicate ControlAt(name: Bytes, i: nat)
    requires i < |name|
  {
    name[i] < 0x20 || name[i] == 0x7F || (name[i] == 0xC2 && i + 1 < |name| && 0x80 <= name[i + 1] < 0xA0)
  }

  /** Text within a limit, with no white space at either end and no control character. */
  predicate NameForm(name: Bytes, max: nat) {
    && 0 < |name| <= max && ValidUtf8(name) && SpaceAtStart(name) == 0 && SpaceAtEnd(name) == 0
    && forall i :: 0 <= i < |name| ==> !ControlAt(name, i)
  }

  lemma NameForms(name: Bytes, max: nat)
    ensures ValidName(name, max) <==> NameForm(name, max)
  {
    hide ValidUtf8, TrimSpace, SpaceAtStart, SpaceAtEnd;
    TrimFixed(name);
    NoControlIff(name);
    hide NoControl, ControlAt;
  }

  lemma NoControlIff(name: Bytes)
    ensures NoControl(name) <==> forall i :: 0 <= i < |name| ==> !ControlAt(name, i)
  {
    if NoControl(name) {
      forall i | 0 <= i < |name| ensures !ControlAt(name, i) {}
    }
    if forall i :: 0 <= i < |name| ==> !ControlAt(name, i) {
      forall i | 0 <= i < |name|
        ensures 32 <= name[i] && name[i] != 127
        ensures i < |name| - 1 ==> !(name[i] == 0xC2 && 0x80 <= name[i + 1] <= 0x9F)
      {
        assert !ControlAt(name, i);
      }
    }
  }

  /** An ordinal makes a name exactly when it is positive and base and name have their form: the base, or base and ordinal. */
  lemma NameIff(base: Bytes, ordinal: int)
    ensures NameForOrdinal(base, ordinal) ==
      if !NameForm(base, 96) || ordinal <= 0 then None
      else
        var text := if ordinal == 1 then base else base + [32] + Itoa(ordinal);
        if NameForm(text, 128) then Some(Name(text, Fold(text))) else None
  {
    hide ValidName, NameForm, Itoa, Fold;
    NameForms(base, 96);
    if ordinal > 0 { NameForms(NameOf(base, ordinal), 128); }
  }

  // ----- Every 64-bit ordinal names an Agent -----

  predicate Ascii(s: Bytes) {
    forall i :: 0 <= i < |s| ==> s[i] < 0x80
  }

  lemma {:induction false} AsciiIsUtf8(s: Bytes)
    requires Ascii(s)
    ensures ValidUtf8(s)
  {
    if s != [] {
      AsciiIsUtf8(s[1..]);
    }
  }

  lemma RuneWidthStable(a: Bytes, b: Bytes)
    requires a != [] && RuneWidth(a) > 0
    ensures RuneWidth(a + b) == RuneWidth(a)
  {}

  lemma {:induction false} Utf8Append(a: Bytes, b: Bytes)
    requires ValidUtf8(a) && ValidUtf8(b)
    ensures ValidUtf8(a + b)
    decreases |a|
  {
    hide RuneWidth;
    if a == [] {
      assert a + b == b;
    } else {
      RuneWidthStable(a, b);
      Utf8Append(a[RuneWidth(a)..], b);
      assert (a + b)[RuneWidth(a)..] == a[RuneWidth(a)..] + b;
    }
  }

  /** A white-space rune of more than one byte holds no ASCII byte, so none can span the join. */
  lemma SuffixKeepsStart(base: Bytes, suffix: Bytes)
    requires base != [] && SpaceAtStart(base) == 0 && Ascii(suffix) && suffix != []
    ensures SpaceAtStart(base + suffix) == 0
  {}

  lemma DigitKeepsEnd(s: Bytes)
    requires s != [] && 48 <= s[|s| - 1] <= 57
    ensures SpaceAtEnd(s) == 0
  {}

  lemma SuffixKeepsEnds(base: Bytes, suffix: Bytes)
    requires base != [] && SpaceAtStart(base) == 0
    requires Ascii(suffix) && suffix != [] && 48 <= suffix[|suffix| - 1] <= 57
    ensures SpaceAtStart(base + suffix) == 0 && SpaceAtEnd(base + suffix) == 0
  {
    hide SpaceAtStart, SpaceAtEnd;
    SuffixKeepsStart(base, suffix);
    DigitKeepsEnd(base + suffix);
  }

  lemma NoControlAppend(base: Bytes, suffix: Bytes)
    requires NoControl(base) && NoControl(suffix) && Ascii(suffix)
    ensures NoControl(base + suffix)
  {}

  /** The suffix " " + Itoa(ordinal). */
  lemma OrdinalSuffix(ordinal: nat)
    requires 1 < ordinal <= 0x7FFF_FFFF_FFFF_FFFF
    ensures var suffix := [32] + Itoa(ordinal);
      Ascii(suffix) && NoControl(suffix) && |suffix| <= 20 && 48 <= suffix[|suffix| - 1] <= 57
  {
    hide Itoa, Pow10;
    SixtyFourBits();
    ItoaLength(ordinal, 19);
  }

  /** A valid base makes a valid name within the limit with every 64-bit ordinal. */
  lemma EveryOrdinalNames(base: Bytes, ordinal: nat)
    requires ValidName(base, MAX_NAME_BASE) && 1 <= ordinal <= 0x7FFF_FFFF_FFFF_FFFF
    ensures NameForOrdinal(base, ordinal) == Some(Name(NameOf(base, ordinal), KeyOf(base, ordinal)))
    ensures |NameOf(base, ordinal)| <= 116 && |KeyOf(base, ordinal)| <= 116
  {
    hide Itoa, TrimSpace, NoControl, ValidUtf8, Fold, Ascii, SpaceAtStart, SpaceAtEnd;
    if ordinal > 1 {
      var suffix := [32] + Itoa(ordinal);
      OrdinalSuffix(ordinal);
      TrimFixed(base);
      SuffixKeepsEnds(base, suffix);
      TrimFixed(base + suffix);
      AsciiIsUtf8(suffix);
      Utf8Append(base, suffix);
      NoControlAppend(base, suffix);
      assert NameOf(base, ordinal) == base + suffix;
    }
  }

  // ----- Keys -----

  lemma FoldOfAppend(a: Bytes, b: Bytes)
    ensures Fold(a + b) == Fold(a) + Fold(b)
  {}

  lemma FoldOfDigits(digits: Bytes)
    requires forall i :: 0 <= i < |digits| ==> 48 <= digits[i] <= 57
    ensures Fold([32] + digits) == [32] + digits
  {}

  lemma KeyShape(base: Bytes, ordinal: nat)
    requires ordinal > 1
    ensures KeyOf(base, ordinal) == Fold(base) + ([32] + Itoa(ordinal))
  {
    hide Itoa, Fold;
    FoldOfAppend(base, [32] + Itoa(ordinal));
    FoldOfDigits(Itoa(ordinal));
    assert base + [32] + Itoa(ordinal) == base + ([32] + Itoa(ordinal));
  }

  /** The ordinal a key was made with. */
  lemma KeyDecodes(base: Bytes, ordinal: nat)
    requires ordinal > 1
    ensures |KeyOf(base, ordinal)| > |base| + 1 && FromDigits(KeyOf(base, ordinal)[|base| + 1..]) == ordinal
  {
    hide Itoa, KeyOf, FromDigits, Fold;
    KeyShape(base, ordinal);
    ItoaRoundTrip(ordinal);
    assert KeyOf(base, ordinal)[|base| + 1..] == Itoa(ordinal);
  }

  /** For a fixed base, different ordinals have different keys. */
  lemma KeyInjective(base: Bytes, a: nat, b: nat)
    requires a > 0 && b > 0
    ensures KeyOf(base, a) == KeyOf(base, b) <==> a == b
  {
    hide KeyOf, FromDigits;
    KeyOfOne(base);
    if a > 1 { KeyDecodes(base, a); }
    if b > 1 { KeyDecodes(base, b); }
  }

  lemma KeyOfOne(base: Bytes)
    ensures |KeyOf(base, 1)| == |base|
  {}

  // ----- Allocation -----

  ghost function KeysBelow(base: Bytes, ordinal: nat): set<Bytes>
    requires ordinal > 0
  {
    set k | 1 <= k < ordinal :: KeyOf(base, k)
  }

  lemma {:induction false} KeysBelowCount(base: Bytes, ordinal: nat)
    requires ordinal > 0
    ensures |KeysBelow(base, ordinal)| == ordinal - 1
  {
    hide KeyOf;
    if ordinal == 1 {
      assert KeysBelow(base, 1) == {};
    } else {
      KeysBelowCount(base, ordinal - 1);
      forall k | 1 <= k < ordinal - 1 ensures KeyOf(base, k) != KeyOf(base, ordinal - 1) {
        KeyInjective(base, k, ordinal - 1);
      }
      assert KeysBelow(base, ordinal) == KeysBelow(base, ordinal - 1) + {KeyOf(base, ordinal - 1)};
    }
  }

  /** Every ordinal below `ordinal` is taken. */
  ghost predicate AllTaken(base: Bytes, taken: set<Bytes>, ordinal: nat) {
    forall k :: 1 <= k < ordinal ==> KeyOf(base, k) in taken
  }

  lemma SubsetSize(a: set<Bytes>, b: set<Bytes>)
    requires a <= b
    ensures |a| <= |b|
  {
    if a != {} {
      var x :| x in a;
      SubsetSize(a - {x}, b - {x});
    }
  }

  /** The loop has to stop: each failed ordinal uses up a key of its own. */
  lemma Pigeonhole(base: Bytes, taken: set<Bytes>, ordinal: nat)
    requires ordinal > 0 && AllTaken(base, taken, ordinal)
    ensures ordinal <= |taken| + 1
  {
    hide KeyOf;
    KeysBelowCount(base, ordinal);
    SubsetSize(KeysBelow(base, ordinal), taken);
  }

  ghost predicate LeastFree(base: Bytes, taken: set<Bytes>, ordinal: nat) {
    ordinal > 0 && KeyOf(base, ordinal) !in taken && AllTaken(base, taken, ordinal)
  }

  /** The name made with the least free ordinal. */
  ghost predicate NamedLeast(base: Bytes, taken: set<Bytes>, name: Name) {
    exists ordinal: nat :: LeastFree(base, taken, ordinal) && NameForOrdinal(base, ordinal) == Some(name)
  }

  /** The loop of `allocateAgentName` from an ordinal on: the first valid name whose key is free. */
  function NameFrom(base: Bytes, taken: set<Bytes>, from: nat): Option<Name>
    requires from > 0 && AllTaken(base, taken, from)
    decreases |taken| + 2 - from
  {
    Pigeonhole(base, taken, from);
    match NameForOrdinal(base, from)
    case None => None
    case Some(name) =>
      NamedByKey(base, from);
      if name.key !in taken then Some(name)
      else
        AllTakenNext(base, taken, from);
        Pigeonhole(base, taken, from + 1);
        NameFrom(base, taken, from + 1)
  }

  lemma AllTakenNext(base: Bytes, taken: set<Bytes>, from: nat)
    requires from > 0 && AllTaken(base, taken, from) && KeyOf(base, from) in taken
    ensures AllTaken(base, taken, from + 1)
  {
    hide KeyOf;
  }

  function AllocatedName(base: Bytes, taken: set<Bytes>): Option<Name> {
    NameFrom(base, taken, 1)
  }

  /** `allocateAgentName`: counts up until a key is free in the Space. */
  method AllocateAgentName(base: Bytes, taken: set<Bytes>) returns (name: Option<Name>)
    ensures name == AllocatedName(base, taken)
  {
    hide KeyOf, NameOf, ValidName, NameForOrdinal;
    var ordinal := 1;
    while true
      invariant ordinal > 0 && AllTaken(base, taken, ordinal)
      invariant NameFrom(base, taken, ordinal) == NameFrom(base, taken, 1)
      decreases |taken| + 2 - ordinal
    {
      Pigeonhole(base, taken, ordinal);
      name := NameForOrdinal(base, ordinal);
      if name.None? {
        return;
      }
      NamedByKey(base, ordinal);
      if name.value.key !in taken {
        return;
      }
      AllTakenNext(base, taken, ordinal);
      ordinal := ordinal + 1;
    }
  }

  lemma NamedByKey(base: Bytes, ordinal: nat)
    requires ordinal > 0 && NameForOrdinal(base, ordinal).Some?
    ensures NameForOrdinal(base, ordinal).value.key == KeyOf(base, ordinal)
    ensures ValidName(NameForOrdinal(base, ordinal).value.text, MAX_NAME)
  {
    hide ValidName;
  }

  lemma {:induction false} NameFromIsLeast(base: Bytes, taken: set<Bytes>, from: nat)
    requires from > 0 && AllTaken(base, taken, from)
    ensures NameFrom(base, taken, from).Some? ==>
      NamedLeast(base, taken, NameFrom(base, taken, from).value)
    ensures ValidName(base, MAX_NAME_BASE) && |taken| < 0x7FFF_FFFF_FFFF_FFFF ==> NameFrom(base, taken, from).Some?
    decreases |taken| + 2 - from
  {
    hide KeyOf, NameOf, ValidName, NameForOrdinal;
    Pigeonhole(base, taken, from);
    if ValidName(base, MAX_NAME_BASE) && |taken| < 0x7FFF_FFFF_FFFF_FFFF {
      EveryOrdinalNames(base, from);
    }
    if NameForOrdinal(base, from).Some? {
      NamedByKey(base, from);
      if KeyOf(base, from) in taken {
        AllTakenNext(base, taken, from);
        Pigeonhole(base, taken, from + 1);
        NameFromIsLeast(base, taken, from + 1);
      } else {
        assert LeastFree(base, taken, from);
      }
    }
  }

  /**
    The allocated name carries the least ordinal whose key no Agent of the Space
    has taken, and a valid base always gets one while ordinals fit 64 bits.
   */
  lemma AllocatesLeastFree(base: Bytes, taken: set<Bytes>)
    ensures AllocatedName(base, taken).Some? ==>
      && AllocatedName(base, taken).value.key !in taken
      && ValidName(AllocatedName(base, taken).value.text, MAX_NAME)
      && NamedLeast(base, taken, AllocatedName(base, taken).value)
    ensures ValidName(base, MAX_NAME_BASE) && |taken| < 0x7FFF_FFFF_FFFF_FFFF ==> AllocatedName(base, taken).Some?
  {
    hide KeyOf, NameOf, ValidName, NameForOrdinal, NameFrom;
    NameFromIsLeast(base, taken, 1);
    if AllocatedName(base, taken).Some? {
      var name := AllocatedName(base, taken).value;
      var ordinal: nat :| LeastFree(base, taken, ordinal) && NameForOrdinal(base, ordinal) == Some(name);
      NamedByKey(base, ordinal);
    }
  }
}
