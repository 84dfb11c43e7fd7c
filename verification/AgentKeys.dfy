/** Adapter and occurrence keys, their byte order, and sorted key lists. */
module AgentKeys {
  import opened Text

  const MAX_ADAPTER_KEY := 63
  const MAX_OCCURRENCE_KEY := 127
  const MAX_KEYS := 32

  predicate LowerOrDigit(b: byte) {
    97 <= b <= 122 || 48 <= b <= 57
  }

  predicate ValidAdapterKey(key: Bytes) {
    && 0 < |key| <= MAX_ADAPTER_KEY
    && forall i :: 0 <= i < |key| ==> LowerOrDigit(key[i]) || (i > 0 && key[i] == 45)
  }

  predicate ValidOccurrenceKey(key: Bytes) {
    && 0 < |key| <= MAX_OCCURRENCE_KEY
    && forall i :: 0 <= i < |key| ==>
         LowerOrDigit(key[i]) || (i > 0 && (key[i] == 46 || key[i] == 95 || key[i] == 45))
  }

  predicate Alphanumeric(b: byte) {
    'a' <= b as char <= 'z' || '0' <= b as char <= '9'
  }

  /** A letter or digit, then letters, digits and hyphens; 63 bytes at most. */
  predicate AdapterForm(key: Bytes) {
    0 < |key| <= 63 && Alphanumeric(key[0]) && forall b :: b in key ==> Alphanumeric(b) || b as char == '-'
  }

  /** The same with dots and underscores, and up to 127 bytes. */
  predicate OccurrenceForm(key: Bytes) {
    && 0 < |key| <= 127 && Alphanumeric(key[0])
    && forall b :: b in key ==> Alphanumeric(b) || b as char == '.' || b as char == '_' || b as char == '-'
  }

  lemma KeyForms(key: Bytes)
    ensures ValidAdapterKey(key) <==> AdapterForm(key)
    ensures ValidOccurrenceKey(key) <==> OccurrenceForm(key)
  {
    if AdapterForm(key) || OccurrenceForm(key) {
      forall i | 0 <= i < |key| ensures key[i] in key {}
    }
  }

  /** Go's `<` on strings: byte-wise lexicographic order. */
  predicate Before(a: Bytes, b: Bytes)
    decreases |a|
  {
    if a == [] then b != []
    else if b == [] then false
    else if a[0] != b[0] then a[0] < b[0]
    else Before(a[1..], b[1..])
  }

  lemma {:induction false} BeforeIrreflexive(a: Bytes)
    ensures !Before(a, a)
    decreases |a|
  {
    if a != [] {
      BeforeIrreflexive(a[1..]);
    }
  }

  lemma {:induction false} BeforeTransitive(a: Bytes, b: Bytes, c: Bytes)
    requires Before(a, b) && Before(b, c)
    ensures Before(a, c)
    decreases |a|
  {
    if a != [] && a[0] == b[0] == c[0] {
      BeforeTransitive(a[1..], b[1..], c[1..]);
    }
  }

  lemma {:induction false} BeforeTotal(a: Bytes, b: Bytes)
    ensures a == b || Before(a, b) || Before(b, a)
    decreases |a|
  {
    if a != [] && b != [] && a[0] == b[0] {
      BeforeTotal(a[1..], b[1..]);
      assert a == [a[0]] + a[1..] && b == [b[0]] + b[1..];
    }
  }

  /** A strictly increasing list, hence one without repetition. */
  /** At the first difference `a` is smaller, or it ends there. */
  predicate SmallerAt(a: Bytes, b: Bytes, k: nat) {
    && k <= |a| && k < |b| && a[..k] == b[..k]
    && (k == |a| || a[k] < b[k])
  }

  lemma FirstAgrees(a: Bytes, b: Bytes, k: nat)
    requires SmallerAt(a, b, k) && a != [] && b != []
    ensures k > 0 ==> a[0] == b[0]
  {
    if k > 0 { assert a[..k][0] == b[..k][0]; }
  }

  lemma {:induction false} BeforeIff(a: Bytes, b: Bytes)
    ensures Before(a, b) <==> exists k: nat :: SmallerAt(a, b, k)
    decreases |a|
  {
    if a == [] {
      if b != [] { assert SmallerAt(a, b, 0); }
    } else if b != [] {
      if a[0] == b[0] {
        BeforeIff(a[1..], b[1..]);
        if k: nat :| SmallerAt(a[1..], b[1..], k) {
          assert a[..k + 1] == [a[0]] + a[1..][..k] && b[..k + 1] == [b[0]] + b[1..][..k];
          assert SmallerAt(a, b, k + 1);
        }
        if k: nat :| SmallerAt(a, b, k) {
          assert a[1..][..k - 1] == a[..k][1..] && b[1..][..k - 1] == b[..k][1..];
          assert SmallerAt(a[1..], b[1..], k - 1);
        }
      } else {
        if a[0] < b[0] { assert SmallerAt(a, b, 0); }
        if k: nat :| SmallerAt(a, b, k) { FirstAgrees(a, b, k); }
      }
    }
  }

  ghost predicate Increasing(keys: seq<Bytes>) {
    forall i, j :: 0 <= i < j < |keys| ==> Before(keys[i], keys[j])
  }

  /** Adds a key to an increasing list. */
  function InsertKey(key: Bytes, keys: seq<Bytes>): seq<Bytes> {
    if keys == [] then [key]
    else if key == keys[0] then keys
    else if Before(key, keys[0]) then [key] + keys
    else [keys[0]] + InsertKey(key, keys[1..])
  }

  lemma {:induction false} InsertKeyKeeps(key: Bytes, keys: seq<Bytes>)
    requires Increasing(keys)
    ensures Increasing(InsertKey(key, keys))
    ensures forall k :: k in InsertKey(key, keys) <==> k == key || k in keys
  {
    hide Before;
    if keys != [] {
      if key == keys[0] {
      } else if Before(key, keys[0]) {
        forall j | 0 < j < |keys| ensures Before(key, keys[j]) {
          BeforeTransitive(key, keys[0], keys[j]);
        }
      } else {
        var inserted := InsertKey(key, keys[1..]);
        InsertKeyKeeps(key, keys[1..]);
        BeforeTotal(key, keys[0]);
        forall k | k in inserted ensures Before(keys[0], k) {
          if k != key {
            assert k in keys[1..];
          }
        }
        assert keys == [keys[0]] + keys[1..];
        forall j | 0 <= j < |inserted| ensures Before(keys[0], inserted[j]) {
          assert inserted[j] in inserted;
        }
      }
    }
  }

  /** The distinct keys of a list, in increasing order. */
  function SortedKeys(keys: seq<Bytes>): seq<Bytes> {
    if keys == [] then [] else InsertKey(keys[|keys| - 1], SortedKeys(keys[..|keys| - 1]))
  }

  lemma {:induction false} SortedKeysExact(keys: seq<Bytes>)
    ensures Increasing(SortedKeys(keys))
    ensures forall k :: k in SortedKeys(keys) <==> k in keys
  {
    if keys != [] {
      var init := keys[..|keys| - 1];
      SortedKeysExact(init);
      InsertKeyKeeps(keys[|keys| - 1], SortedKeys(init));
      assert keys == init + [keys[|keys| - 1]];
    }
  }

  /** An increasing list is determined by its elements. */
  lemma {:induction false} IncreasingUnique(a: seq<Bytes>, b: seq<Bytes>)
    requires Increasing(a) && Increasing(b)
    requires forall k :: k in a <==> k in b
    ensures a == b
  {
    hide Before;
    var first := if a != [] then a[0] else if b != [] then b[0] else [];
    assert first in a <==> first in b;
    if a != [] && b != [] {
      assert a[0] in b && b[0] in a;
      FirstIsLeast(a, b[0]);
      FirstIsLeast(b, a[0]);
      if a[0] != b[0] {
        BeforeTransitive(a[0], b[0], a[0]);
        BeforeIrreflexive(a[0]);
      }
      forall k ensures k in a[1..] <==> k in b[1..] {
        BeforeIrreflexive(a[0]);
        assert k in a <==> k == a[0] || k in a[1..];
        assert k in b <==> k == b[0] || k in b[1..];
        assert a[0] !in a[1..] && b[0] !in b[1..];
      }
      IncreasingUnique(a[1..], b[1..]);
      assert a == [a[0]] + a[1..] && b == [b[0]] + b[1..];
    }
  }

  lemma FirstIsLeast(keys: seq<Bytes>, key: Bytes)
    requires Increasing(keys) && key in keys
    ensures keys[0] == key || Before(keys[0], key)
  {}

  /** Lists a set of keys and sorts it. */
  method SortKeySet(keys: set<Bytes>) returns (sorted: seq<Bytes>)
    ensures Increasing(sorted)
    ensures forall k :: k in sorted <==> k in keys
  {
    hide Before;
    sorted := [];
    var rest := keys;
    while rest != {}
      invariant rest <= keys && Increasing(sorted)
      invariant forall k :: k in sorted <==> k in keys - rest
      decreases |rest|
    {
      var key :| key in rest;
      InsertKeyKeeps(key, sorted);
      sorted := InsertKey(key, sorted);
      rest := rest - {key};
    }
  }

  /** A key list the Host accepts from the server. */
  predicate ValidReportKeys(keys: seq<Bytes>) {
    && |keys| <= MAX_KEYS
    && (forall i :: 0 <= i < |keys| ==> ValidAdapterKey(keys[i]))
    && forall i :: 1 <= i < |keys| ==> Before(keys[i - 1], keys[i])
  }

  lemma FormsAgree(keys: seq<Bytes>)
    ensures (forall i :: 0 <= i < |keys| ==> ValidAdapterKey(keys[i])) <==> forall key :: key in keys ==> AdapterForm(key)
  {
    hide ValidAdapterKey, AdapterForm;
    forall i | 0 <= i < |keys| ensures ValidAdapterKey(keys[i]) <==> AdapterForm(keys[i]) {
      KeyForms(keys[i]);
    }
    forall i | 0 <= i < |keys| ensures keys[i] in keys {}
  }

  /** `validAgentReportKeys`: neighbours in order are enough for the whole list. */
  method CheckReportKeys(keys: seq<Bytes>) returns (valid: bool)
    ensures valid == ValidReportKeys(keys)
    ensures valid <==> |keys| <= 32 && Increasing(keys) && forall key :: key in keys ==> AdapterForm(key)
  {
    hide Before, ValidAdapterKey, AdapterForm;
    FormsAgree(keys);
    if |keys| > MAX_KEYS {
      return false;
    }
    for index := 0 to |keys|
      invariant forall i :: 0 <= i < index ==> ValidAdapterKey(keys[i])
      invariant forall i :: 1 <= i < index ==> Before(keys[i - 1], keys[i])
    {
      if !ValidAdapterKey(keys[index]) || (index > 0 && !Before(keys[index - 1], keys[index])) {
        return false;
      }
    }
    NeighboursSuffice(keys);
    return true;
  }

  lemma {:induction false} NeighboursSuffice(keys: seq<Bytes>)
    requires forall i :: 1 <= i < |keys| ==> Before(keys[i - 1], keys[i])
    ensures Increasing(keys)
  {
    hide Before;
    if |keys| > 1 {
      var init := keys[..|keys| - 1];
      NeighboursSuffice(init);
      var last := keys[|keys| - 1];
      forall i | 0 <= i < |init| ensures Before(keys[i], last) {
        if i < |init| - 1 {
          assert Before(init[i], init[|init| - 1]);
          BeforeTransitive(keys[i], keys[|init| - 1], last);
        }
      }
      assert keys == init + [last];
    }
  }
}
