/** `AgentPresence.Report`: one complete Machine observation, canonicalized and validated. */
module ReportCommand {
  import opened Wrappers
  import opened Ids
  import opened Text
  import opened AgentKeys
  import Digest

  const MAX_SERIAL := 256
  const MAX_OBSERVATIONS := 32

  datatype Binding = Binding(adapter: Bytes, occurrence: Bytes)

  datatype Observation = Observation(binding: Binding, present: bool)

  datatype Recognized = Recognized(binding: Binding, present: bool, nameBase: Bytes)

  datatype Descriptor = Descriptor(nameBase: Bytes, maxOccurrences: nat)

  type Vocabulary = map<Bytes, Descriptor>

  datatype Request = Request(
    machine: Id,
    serial: Bytes,
    report: Id,
    base: int,
    observations: seq<Observation>)

  datatype Command = Command(
    machine: Id,
    serial: Bytes,
    report: Id,
    base: int,
    digest: Bytes,
    recognized: seq<Recognized>,
    unsupported: seq<Bytes>)

  datatype ReportError = InvalidAgentReport

  // ----- Order -----

  predicate KeyBefore(a: Binding, b: Binding) {
    if a.adapter != b.adapter then Before(a.adapter, b.adapter) else Before(a.occurrence, b.occurrence)
  }

  lemma KeyBeforeIrreflexive(a: Binding)
    ensures !KeyBefore(a, a)
  {
    BeforeIrreflexive(a.occurrence);
  }

  lemma KeyBeforeTransitive(a: Binding, b: Binding, c: Binding)
    requires KeyBefore(a, b) && KeyBefore(b, c)
    ensures KeyBefore(a, c)
  {
    hide Before;
    BeforeIrreflexive(a.adapter);
    if a.adapter != b.adapter && b.adapter != c.adapter {
      BeforeTransitive(a.adapter, b.adapter, c.adapter);
    } else if a.adapter == b.adapter == c.adapter {
      BeforeTransitive(a.occurrence, b.occurrence, c.occurrence);
    }
  }

  lemma KeyBeforeTotal(a: Binding, b: Binding)
    ensures a == b || KeyBefore(a, b) || KeyBefore(b, a)
  {
    BeforeTotal(a.adapter, b.adapter);
    BeforeTotal(a.occurrence, b.occurrence);
  }

  ghost predicate Sorted(observations: seq<Observation>) {
    forall i, j :: 0 <= i < j < |observations| ==> !KeyBefore(observations[j].binding, observations[i].binding)
  }

  /** Sorted with no binding twice. */
  ghost predicate Strict(observations: seq<Observation>) {
    forall i, j :: 0 <= i < j < |observations| ==> KeyBefore(observations[i].binding, observations[j].binding)
  }

  function Insert(o: Observation, sorted: seq<Observation>): seq<Observation> {
    if sorted == [] || !KeyBefore(sorted[0].binding, o.binding) then [o] + sorted
    else [sorted[0]] + Insert(o, sorted[1..])
  }

  function Sort(observations: seq<Observation>): (sorted: seq<Observation>)
    ensures |sorted| == |observations|
    ensures multiset(sorted) == multiset(observations)
  {
    if observations == [] then []
    else
      var last := |observations| - 1;
      assert observations == observations[..last] + [observations[last]];
      InsertMultiset(observations[last], Sort(observations[..last]));
      Insert(observations[last], Sort(observations[..last]))
  }

  lemma {:induction false} InsertMultiset(o: Observation, sorted: seq<Observation>)
    ensures |Insert(o, sorted)| == |sorted| + 1
    ensures multiset(Insert(o, sorted)) == multiset(sorted) + multiset{o}
  {
    hide KeyBefore;
    if sorted != [] {
      InsertMultiset(o, sorted[1..]);
      assert sorted == [sorted[0]] + sorted[1..];
    }
  }

  lemma {:induction false} InsertSorted(o: Observation, sorted: seq<Observation>)
    requires Sorted(sorted)
    ensures Sorted(Insert(o, sorted))
  {
    hide KeyBefore;
    if sorted == [] {
    } else if !KeyBefore(sorted[0].binding, o.binding) {
      forall j | 0 <= j < |sorted| ensures !KeyBefore(sorted[j].binding, o.binding) {
        KeyBeforeTotal(sorted[0].binding, o.binding);
        if j > 0 && KeyBefore(sorted[j].binding, o.binding) && o.binding != sorted[0].binding {
          KeyBeforeTransitive(sorted[j].binding, o.binding, sorted[0].binding);
        }
      }
    } else {
      var inserted := Insert(o, sorted[1..]);
      InsertSorted(o, sorted[1..]);
      InsertMultiset(o, sorted[1..]);
      forall j | 0 <= j < |inserted| ensures !KeyBefore(inserted[j].binding, sorted[0].binding) {
        assert inserted[j] in multiset(inserted);
        if inserted[j] == o {
          if KeyBefore(o.binding, sorted[0].binding) {
            KeyBeforeTransitive(o.binding, sorted[0].binding, o.binding);
            KeyBeforeIrreflexive(o.binding);
          }
        } else {
          assert inserted[j] in sorted[1..];
        }
      }
    }
  }

  lemma {:induction false} SortSorts(observations: seq<Observation>)
    ensures Sorted(Sort(observations))
  {
    if observations != [] {
      SortSorts(observations[..|observations| - 1]);
      InsertSorted(observations[|observations| - 1], Sort(observations[..|observations| - 1]));
    }
  }

  /** The head of a repetition-free sorted list heads every sorted list of its elements. */
  lemma SameHead(x: seq<Observation>, y: seq<Observation>)
    requires Sorted(x) && Strict(y) && multiset(x) == multiset(y) && x != [] && y != []
    ensures x[0] == y[0]
  {
    hide KeyBefore;
    assert x[0] in multiset(y) && y[0] in multiset(x);
    var j :| 0 <= j < |y| && y[j] == x[0];
    var k :| 0 <= k < |x| && x[k] == y[0];
    KeyBeforeIrreflexive(x[0].binding);
  }

  lemma TailMultiset(x: seq<Observation>)
    requires x != []
    ensures multiset(x[1..]) == multiset(x) - multiset{x[0]}
  {
    assert x == [x[0]] + x[1..];
  }

  /** A repetition-free sorted list is the only sorted list of its elements. */
  lemma {:induction false} StrictUnique(x: seq<Observation>, y: seq<Observation>)
    requires Sorted(x) && Strict(y) && multiset(x) == multiset(y)
    ensures x == y
  {
    hide KeyBefore;
    assert |x| == |multiset(x)| == |y|;
    if x != [] {
      SameHead(x, y);
      TailMultiset(x);
      TailMultiset(y);
      TailSorted(x, y);
      StrictUnique(x[1..], y[1..]);
      hide Sorted, Strict;
      assert x == [x[0]] + x[1..] && y == [y[0]] + y[1..];
    }
  }

  lemma TailSorted(x: seq<Observation>, y: seq<Observation>)
    requires Sorted(x) && Strict(y) && x != [] && y != []
    ensures Sorted(x[1..]) && Strict(y[1..])
  {
    hide KeyBefore;
  }

  // ----- Digest -----

  /** "carry/machine-agent-report/v1" */
  const REPORT_TAG: Bytes :=
    [99, 97, 114, 114, 121, 47, 109, 97, 99, 104, 105, 110, 101, 45, 97, 103, 101, 110, 116, 45,
     114, 101, 112, 111, 114, 116, 47, 118, 49]

  function ObservationFields(observations: seq<Observation>): (fields: seq<Bytes>)
    ensures |fields| == 3 * |observations|
  {
    if observations == [] then []
    else
      var last := observations[|observations| - 1];
      ObservationFields(observations[..|observations| - 1])
        + [last.binding.adapter, last.binding.occurrence, [if last.present then 1 else 0]]
  }

  function ReportDigest(report: Id, base: nat, observations: seq<Observation>): Bytes {
    Digest.Preimage([REPORT_TAG, report.text, Digest.Prefix(base)] + ObservationFields(observations))
  }

  lemma {:induction false} ObservationFieldsInjective(a: seq<Observation>, b: seq<Observation>)
    requires ObservationFields(a) == ObservationFields(b)
    ensures a == b
  {
    assert |a| == |b|;
    if a != [] {
      var n := |a| - 1;
      var fields := ObservationFields(a);
      assert ObservationFields(a[..n]) == fields[..3 * n] == ObservationFields(b[..n]);
      ObservationFieldsInjective(a[..n], b[..n]);
      assert fields[3 * n] == a[n].binding.adapter == b[n].binding.adapter;
      assert fields[3 * n + 1] == a[n].binding.occurrence == b[n].binding.occurrence;
      assert fields[3 * n + 2] == [if a[n].present then 1 else 0] == [if b[n].present then 1 else 0];
      assert a[n] == b[n];
      assert a == a[..n] + [a[n]] && b == b[..n] + [b[n]];
    }
  }

  lemma {:induction false} ObservationFieldsShort(observations: seq<Observation>)
    requires forall i :: 0 <= i < |observations| ==> ValidObservation(observations[i])
    ensures Digest.Representable(ObservationFields(observations))
  {
    if observations != [] {
      ObservationFieldsShort(observations[..|observations| - 1]);
    }
  }

  // ----- The scan -----

  predicate ValidObservation(o: Observation) {
    ValidAdapterKey(o.binding.adapter) && ValidOccurrenceKey(o.binding.occurrence)
  }

  datatype Scan = Scan(counts: map<Bytes, nat>, recognized: seq<Recognized>, unknown: seq<Bytes>)

  function CountOf(counts: map<Bytes, nat>, adapter: Bytes): nat {
    if adapter in counts then counts[adapter] else 0
  }

  /** The loop over the sorted observations, after `n` of them; None once one was refused. */
  function ScanTo(observations: seq<Observation>, vocabulary: Vocabulary, n: nat): Option<Scan>
    requires n <= |observations|
  {
    if n == 0 then Some(Scan(map[], [], []))
    else
      var o := observations[n - 1];
      match ScanTo(observations, vocabulary, n - 1)
      case None => None
      case Some(scan) =>
        if !ValidObservation(o) then None
        else if n > 1 && o.binding == observations[n - 2].binding then None
        else if o.binding.adapter !in vocabulary then Some(scan.(unknown := scan.unknown + [o.binding.adapter]))
        else
          var descriptor := vocabulary[o.binding.adapter];
          var count := CountOf(scan.counts, o.binding.adapter) + 1;
          if count > descriptor.maxOccurrences then None
          else Some(Scan(scan.counts[o.binding.adapter := count],
                         scan.recognized + [Recognized(o.binding, o.present, descriptor.nameBase)],
                         scan.unknown))
  }

  predicate ValidHeader(request: Request) {
    && request.serial != [] && TrimSpace(request.serial) == request.serial && |request.serial| <= MAX_SERIAL
    && request.base >= 0
    && |request.observations| <= MAX_OBSERVATIONS
  }

  /** The base revision of a request whose header is valid. */
  function Base(request: Request): nat {
    if request.base < 0 then 0 else request.base
  }

  function Canonical(request: Request, vocabulary: Vocabulary): Result<Command, ReportError> {
    if !ValidHeader(request) then Err(InvalidAgentReport)
    else
      var observations := Sort(request.observations);
      match ScanTo(observations, vocabulary, |observations|)
      case None => Err(InvalidAgentReport)
      case Some(scan) =>
        Ok(Command(request.machine, request.serial, request.report, request.base,
                   ReportDigest(request.report, Base(request), observations),
                   scan.recognized, SortedKeys(scan.unknown)))
  }

  /** The scanning loop, with its counting map and its set of unsupported keys. */
  method ScanObservations(observations: seq<Observation>, vocabulary: Vocabulary)
    returns (ok: bool, recognized: seq<Recognized>, unsupported: set<Bytes>)
    ensures ok == ScanTo(observations, vocabulary, |observations|).Some?
    ensures ok ==>
      var scan := ScanTo(observations, vocabulary, |observations|).value;
      recognized == scan.recognized && forall k :: k in scan.unknown <==> k in unsupported
  {
    hide ValidObservation;
    var counts: map<Bytes, nat> := map[];
    recognized, unsupported := [], {};
    for index := 0 to |observations|
      invariant ScanTo(observations, vocabulary, index).Some?
      invariant ScanTo(observations, vocabulary, index).value.counts == counts
      invariant ScanTo(observations, vocabulary, index).value.recognized == recognized
      invariant forall k :: k in ScanTo(observations, vocabulary, index).value.unknown <==> k in unsupported
    {
      var observation := observations[index];
      var repeated := index > 0 && observation.binding == observations[index - 1].binding;
      if !ValidObservation(observation) || repeated {
        ScanRefuses(observations, vocabulary, index + 1);
        return false, [], {};
      }
      if observation.binding.adapter !in vocabulary {
        unsupported := unsupported + {observation.binding.adapter};
        continue;
      }
      var descriptor := vocabulary[observation.binding.adapter];
      var count := CountOf(counts, observation.binding.adapter) + 1;
      counts := counts[observation.binding.adapter := count];
      if count > descriptor.maxOccurrences {
        ScanRefuses(observations, vocabulary, index + 1);
        return false, [], {};
      }
      recognized := recognized + [Recognized(observation.binding, observation.present, descriptor.nameBase)];
    }
    return true, recognized, unsupported;
  }

  method Canonicalize(request: Request, vocabulary: Vocabulary) returns (r: Result<Command, ReportError>)
    ensures r == Canonical(request, vocabulary)
  {
    hide ReportDigest, ValidHeader, Sort, ScanTo, SortedKeys, Increasing;
    if !ValidHeader(request) {
      return Err(InvalidAgentReport);
    }
    var observations := Sort(request.observations);
    var ok, recognized, unsupportedSet := ScanObservations(observations, vocabulary);
    if !ok {
      return Err(InvalidAgentReport);
    }
    var unsupported := SortKeySet(unsupportedSet);
    ghost var unknown := ScanTo(observations, vocabulary, |observations|).value.unknown;
    SortedKeysExact(unknown);
    IncreasingUnique(unsupported, SortedKeys(unknown));
    return Ok(Command(request.machine, request.serial, request.report, request.base,
                      ReportDigest(request.report, Base(request), observations), recognized, unsupported));
  }

  lemma {:induction false} ScanRefuses(observations: seq<Observation>, vocabulary: Vocabulary, n: nat)
    requires n <= |observations| && ScanTo(observations, vocabulary, n).None?
    ensures ScanTo(observations, vocabulary, |observations|).None?
    decreases |observations| - n
  {
    if n < |observations| {
      ScanRefuses(observations, vocabulary, n + 1);
    }
  }

  // ----- What the scan accepts -----

  ghost predicate Distinct(observations: seq<Observation>) {
    forall i, j :: 0 <= i < j < |observations| ==> observations[i].binding != observations[j].binding
  }

  /** How many observations name `adapter`. */
  function Occurrences(observations: seq<Observation>, adapter: Bytes): nat {
    if observations == [] then 0
    else
      var last := |observations| - 1;
      Occurrences(observations[..last], adapter) + if observations[last].binding.adapter == adapter then 1 else 0
  }

  /** What makes a complete observation acceptable, in no particular order. */
  ghost predicate Acceptable(observations: seq<Observation>, vocabulary: Vocabulary) {
    && (forall i :: 0 <= i < |observations| ==> ValidObservation(observations[i]))
    && Distinct(observations)
    && forall adapter :: adapter in vocabulary ==>
         Occurrences(observations, adapter) <= vocabulary[adapter].maxOccurrences
  }

  ghost predicate NeighboursDiffer(observations: seq<Observation>, n: nat)
    requires n <= |observations|
  {
    forall i :: 1 <= i < n ==> observations[i - 1].binding != observations[i].binding
  }

  /** The scan succeeds exactly on valid, adjacent-distinct observations within every family's limit. */
  lemma {:induction false} ScanIff(observations: seq<Observation>, vocabulary: Vocabulary, n: nat)
    requires n <= |observations|
    ensures ScanTo(observations, vocabulary, n).Some? <==>
      && (forall i :: 0 <= i < n ==> ValidObservation(observations[i]))
      && NeighboursDiffer(observations, n)
      && (forall adapter :: adapter in vocabulary ==>
            Occurrences(observations[..n], adapter) <= vocabulary[adapter].maxOccurrences)
    ensures ScanTo(observations, vocabulary, n).Some? ==>
      forall adapter :: adapter in vocabulary ==>
        CountOf(ScanTo(observations, vocabulary, n).value.counts, adapter) == Occurrences(observations[..n], adapter)
  {
    hide ValidObservation;
    if n > 0 {
      ScanIff(observations, vocabulary, n - 1);
      assert observations[..n][..n - 1] == observations[..n - 1];
    }
  }

  /** In sorted order a duplicate always has an equal neighbour. */
  lemma {:induction false} NeighboursFindDuplicates(observations: seq<Observation>)
    requires Sorted(observations) && NeighboursDiffer(observations, |observations|)
    ensures Strict(observations)
  {
    hide KeyBefore;
    if |observations| > 1 {
      var n := |observations| - 1;
      NeighboursFindDuplicates(observations[..n]);
      KeyBeforeTotal(observations[n - 1].binding, observations[n].binding);
      forall i | 0 <= i < n ensures KeyBefore(observations[i].binding, observations[n].binding) {
        if i < n - 1 {
          assert KeyBefore(observations[..n][i].binding, observations[..n][n - 1].binding);
          KeyBeforeTransitive(observations[i].binding, observations[n - 1].binding, observations[n].binding);
        }
      }
    }
  }

  lemma StrictIsDistinct(observations: seq<Observation>)
    requires Strict(observations)
    ensures Distinct(observations)
  {
    hide KeyBefore;
    forall i, j | 0 <= i < j < |observations| ensures observations[i].binding != observations[j].binding {
      KeyBeforeIrreflexive(observations[i].binding);
    }
  }

  // ----- Permutations -----

  lemma {:induction false} OccurrencesAppend(a: seq<Observation>, b: seq<Observation>, adapter: Bytes)
    ensures Occurrences(a + b, adapter) == Occurrences(a, adapter) + Occurrences(b, adapter)
  {
    if b == [] {
      assert a + b == a;
    } else {
      var n := |b| - 1;
      assert (a + b)[..|a + b| - 1] == a + b[..n];
      OccurrencesAppend(a, b[..n], adapter);
    }
  }

  /** Removing one occurrence of an element wherever it stands. */
  lemma RemoveOne(s: seq<Observation>, i: nat)
    requires i < |s|
    ensures multiset(s[..i] + s[i + 1..]) == multiset(s) - multiset{s[i]}
  {
    assert s == s[..i] + [s[i]] + s[i + 1..];
  }

  lemma OccurrencesOfOne(o: Observation, adapter: Bytes)
    ensures Occurrences([o], adapter) == if o.binding.adapter == adapter then 1 else 0
  {
    assert [o][..0] == [];
  }

  lemma OccurrencesWithout(s: seq<Observation>, i: nat, adapter: Bytes)
    requires i < |s|
    ensures Occurrences(s, adapter)
      == Occurrences(s[..i] + s[i + 1..], adapter) + if s[i].binding.adapter == adapter then 1 else 0
  {
    hide Occurrences;
    var before, one, after := s[..i], [s[i]], s[i + 1..];
    OccurrencesOfOne(s[i], adapter);
    OccurrencesAppend(before, after, adapter);
    OccurrencesAppend(one, after, adapter);
    OccurrencesAppend(before, one + after, adapter);
    assert s == before + (one + after);
  }

  lemma {:induction false} OccurrencesPermute(a: seq<Observation>, b: seq<Observation>, adapter: Bytes)
    requires multiset(a) == multiset(b)
    ensures Occurrences(a, adapter) == Occurrences(b, adapter)
    decreases |a|
  {
    assert |a| == |multiset(a)| == |b|;
    if a != [] {
      var n := |a| - 1;
      assert a[n] in multiset(b);
      var i :| 0 <= i < |b| && b[i] == a[n];
      RemoveOne(b, i);
      RemoveOne(a, n);
      assert a[..n] + a[n + 1..] == a[..n];
      OccurrencesPermute(a[..n], b[..i] + b[i + 1..], adapter);
      OccurrencesWithout(b, i, adapter);
    } else {
      assert b == [];
    }
  }

  /** In a repetition-free list nothing equal to an element remains once it is removed. */
  lemma OnlyOne(a: seq<Observation>, o: Observation)
    requires Distinct(a)
    ensures multiset(a)[o] <= 1
  {
    if o in multiset(a) {
      var x :| 0 <= x < |a| && a[x] == o;
      RemoveOne(a, x);
      var others := a[..x] + a[x + 1..];
      forall z | 0 <= z < |others| ensures others[z] != o {
        var index := if z < x then z else z + 1;
        assert others[z] == a[index] && index != x;
      }
      assert o !in others && o !in multiset(others);
    }
  }

  lemma DistinctPermutes(a: seq<Observation>, b: seq<Observation>)
    requires multiset(a) == multiset(b) && Distinct(a)
    ensures Distinct(b)
  {
    forall i, j | 0 <= i < j < |b| ensures b[i].binding != b[j].binding {
      assert b[i] in multiset(a) && b[j] in multiset(a);
      var x :| 0 <= x < |a| && a[x] == b[i];
      var y :| 0 <= y < |a| && a[y] == b[j];
      OnlyOne(a, b[i]);
      RemoveOne(b, j);
      var rest := b[..j] + b[j + 1..];
      assert rest[i] == b[i] && rest[i] in multiset(rest);
      assert b[i] != b[j];
    }
  }

  lemma AcceptablePermutes(a: seq<Observation>, b: seq<Observation>, vocabulary: Vocabulary)
    requires multiset(a) == multiset(b) && Acceptable(a, vocabulary)
    ensures Acceptable(b, vocabulary)
  {
    hide ValidObservation, Occurrences, Distinct;
    DistinctPermutes(a, b);
    forall i | 0 <= i < |b| ensures ValidObservation(b[i]) {
      assert b[i] in multiset(a);
    }
    forall adapter | adapter in vocabulary
      ensures Occurrences(b, adapter) <= vocabulary[adapter].maxOccurrences
    {
      OccurrencesPermute(a, b, adapter);
    }
  }

  // ----- Main results -----

  /**
    A report is accepted exactly when its header is valid, every key is valid, no
    binding occurs twice anywhere in it, and no family exceeds its limit.
   */
  lemma AcceptedIff(request: Request, vocabulary: Vocabulary)
    ensures Canonical(request, vocabulary).Ok? <==>
      ValidHeader(request) && Acceptable(request.observations, vocabulary)
  {
    hide KeyBefore, ValidObservation, ReportDigest, ValidHeader, SortedKeys, Insert, Sort;
    var sorted := Sort(request.observations);
    SortSorts(request.observations);
    ScanIff(sorted, vocabulary, |sorted|);
    assert sorted[..|sorted|] == sorted;
    if ScanTo(sorted, vocabulary, |sorted|).Some? {
      NeighboursFindDuplicates(sorted);
      StrictIsDistinct(sorted);
      AcceptablePermutes(sorted, request.observations, vocabulary);
    }
    if Acceptable(request.observations, vocabulary) {
      AcceptablePermutes(request.observations, sorted, vocabulary);
    }
  }

  /** The same, spelled out: the forms of certificate, revision and keys, and at most 32 observations. */
  lemma ReportIff(request: Request, vocabulary: Vocabulary)
    ensures Canonical(request, vocabulary).Ok? <==>
      && 0 < |request.serial| <= 256 && SpaceAtStart(request.serial) == 0 && SpaceAtEnd(request.serial) == 0
      && 0 <= request.base && |request.observations| <= 32
      && (forall o :: o in request.observations ==> AdapterForm(o.binding.adapter) && OccurrenceForm(o.binding.occurrence))
      && (forall i, j :: 0 <= i < j < |request.observations| ==>
            request.observations[i].binding != request.observations[j].binding)
      && (forall adapter :: adapter in vocabulary ==>
            Occurrences(request.observations, adapter) <= vocabulary[adapter].maxOccurrences)
  {
    hide ReportDigest, Sort, ScanTo, SortedKeys, AdapterForm, OccurrenceForm, ValidAdapterKey, ValidOccurrenceKey, TrimSpace,
      SpaceAtStart, SpaceAtEnd, Occurrences, Canonical;
    AcceptedIff(request, vocabulary);
    TrimFixed(request.serial);
    forall i | 0 <= i < |request.observations|
      ensures ValidObservation(request.observations[i]) <==>
        AdapterForm(request.observations[i].binding.adapter) && OccurrenceForm(request.observations[i].binding.occurrence)
    {
      KeyForms(request.observations[i].binding.adapter);
      KeyForms(request.observations[i].binding.occurrence);
    }
    forall i | 0 <= i < |request.observations| ensures request.observations[i] in request.observations {}
  }

  lemma SortsAlike(a: seq<Observation>, b: seq<Observation>, vocabulary: Vocabulary)
    requires multiset(a) == multiset(b) && Acceptable(a, vocabulary)
    ensures Acceptable(b, vocabulary) && Sort(a) == Sort(b)
  {
    hide Acceptable, Sort, Sorted, Strict;
    AcceptablePermutes(a, b, vocabulary);
    SortSorts(a);
    SortedAcceptableIsStrict(Sort(b), b, vocabulary);
    StrictUnique(Sort(a), Sort(b));
  }

  lemma RefusedUnlessAccepted(request: Request, vocabulary: Vocabulary)
    requires !Canonical(request, vocabulary).Ok?
    ensures Canonical(request, vocabulary) == Err(InvalidAgentReport)
  {
    hide ValidHeader, Sort, ScanTo;
  }

  lemma CanonicalOfSorted(a: Request, b: Request, vocabulary: Vocabulary)
    requires a == b.(observations := a.observations) && |a.observations| == |b.observations|
    requires Sort(a.observations) == Sort(b.observations)
    ensures Canonical(a, vocabulary) == Canonical(b, vocabulary)
  {
    hide Sort, ScanTo, ReportDigest, SortedKeys, TrimSpace;
  }

  /** The order in which a Host lists its observations never matters, refusals included. */
  lemma PermutationInvariant(a: Request, b: Request, vocabulary: Vocabulary)
    requires multiset(a.observations) == multiset(b.observations) && a == b.(observations := a.observations)
    ensures Canonical(a, vocabulary) == Canonical(b, vocabulary)
  {
    hide *;
    assert |a.observations| == |multiset(a.observations)| == |b.observations|;
    if Acceptable(a.observations, vocabulary) {
      SortsAlike(a.observations, b.observations, vocabulary);
      CanonicalOfSorted(a, b, vocabulary);
    } else if Acceptable(b.observations, vocabulary) {
      SortsAlike(b.observations, a.observations, vocabulary);
    } else {
      AcceptedIff(a, vocabulary);
      AcceptedIff(b, vocabulary);
      RefusedUnlessAccepted(a, vocabulary);
      RefusedUnlessAccepted(b, vocabulary);
    }
  }

  lemma SortedAcceptableIsStrict(sorted: seq<Observation>, observations: seq<Observation>, vocabulary: Vocabulary)
    requires Acceptable(observations, vocabulary) && sorted == Sort(observations)
    ensures Strict(sorted)
  {
    hide KeyBefore, ValidObservation, Occurrences, Insert, Sort;
    SortSorts(observations);
    DistinctPermutes(observations, sorted);
    NeighboursFindDuplicates(sorted);
  }

  /** Two accepted reports share a digest exactly when they say the same thing, in whatever order. */
  lemma DigestIdentifies(a: Request, b: Request, vocabulary: Vocabulary)
    requires Canonical(a, vocabulary).Ok? && Canonical(b, vocabulary).Ok?
    requires a.base < Digest.WORD && b.base < Digest.WORD
    ensures Canonical(a, vocabulary).value.digest == Canonical(b, vocabulary).value.digest <==>
      a.report == b.report && a.base == b.base && multiset(a.observations) == multiset(b.observations)
  {
    hide KeyBefore, ValidObservation, ReportDigest, SortedKeys, Insert, ScanTo, Acceptable, Sort;
    AcceptedIff(a, vocabulary);
    AcceptedIff(b, vocabulary);
    var x, y := Sort(a.observations), Sort(b.observations);
    if a.report == b.report && a.base == b.base && multiset(a.observations) == multiset(b.observations) {
      SortSorts(a.observations);
      SortedAcceptableIsStrict(y, b.observations, vocabulary);
      StrictUnique(x, y);
    }
    if ReportDigest(a.report, a.base, x) == ReportDigest(b.report, b.base, y) {
      AcceptablePermutes(a.observations, x, vocabulary);
      AcceptablePermutes(b.observations, y, vocabulary);
      AcceptableFits(x, vocabulary);
      AcceptableFits(y, vocabulary);
      DigestInjective(a.report, a.base, x, b.report, b.base, y);
    }
  }

  lemma AcceptableFits(observations: seq<Observation>, vocabulary: Vocabulary)
    requires Acceptable(observations, vocabulary)
    ensures Digest.Representable(ObservationFields(observations))
  {
    ObservationFieldsShort(observations);
  }

  lemma DigestInjective(report: Id, base: nat, x: seq<Observation>, other: Id, otherBase: nat, y: seq<Observation>)
    requires Digest.Representable(ObservationFields(x)) && Digest.Representable(ObservationFields(y))
    requires base < Digest.WORD && otherBase < Digest.WORD
    requires ReportDigest(report, base, x) == ReportDigest(other, otherBase, y)
    ensures report == other && base == otherBase && x == y
  {
    hide Digest.Preimage, Digest.Prefix, ObservationFields;
    var fieldsX := [REPORT_TAG, report.text, Digest.Prefix(base)] + ObservationFields(x);
    var fieldsY := [REPORT_TAG, other.text, Digest.Prefix(otherBase)] + ObservationFields(y);
    Digest.PreimageInjective(fieldsX, fieldsY);
    assert fieldsX[1] == fieldsY[1] && fieldsX[2] == fieldsY[2];
    Digest.PrefixRoundTrip(base);
    Digest.PrefixRoundTrip(otherBase);
    assert fieldsX[3..] == ObservationFields(x) && fieldsY[3..] == ObservationFields(y);
    ObservationFieldsInjective(x, y);
  }

  // ----- What the store receives -----

  ghost predicate HasAdapter(observations: seq<Observation>, adapter: Bytes) {
    exists o :: o in observations && o.binding.adapter == adapter
  }

  /** The recognized list is the observations of known families, each with its family's name base. */
  ghost predicate RecognizesExactly(observations: seq<Observation>, recognized: seq<Recognized>, vocabulary: Vocabulary) {
    && (forall r :: r in recognized ==>
          && r.binding.adapter in vocabulary && r.nameBase == vocabulary[r.binding.adapter].nameBase
          && Observation(r.binding, r.present) in observations)
    && (forall o :: o in observations && o.binding.adapter in vocabulary ==>
          Recognized(o.binding, o.present, vocabulary[o.binding.adapter].nameBase) in recognized)
  }

  lemma {:induction false} ScanRecognizes(observations: seq<Observation>, vocabulary: Vocabulary, n: nat)
    requires n <= |observations| && ScanTo(observations, vocabulary, n).Some?
    ensures RecognizesExactly(observations[..n], ScanTo(observations, vocabulary, n).value.recognized, vocabulary)
  {
    hide ValidObservation;
    if n > 0 {
      ScanRecognizes(observations, vocabulary, n - 1);
      assert observations[..n] == observations[..n - 1] + [observations[n - 1]];
    }
  }

  lemma {:induction false} ScanDistinct(observations: seq<Observation>, vocabulary: Vocabulary, n: nat)
    requires n <= |observations| && ScanTo(observations, vocabulary, n).Some? && Distinct(observations)
    ensures DistinctBindings(ScanTo(observations, vocabulary, n).value.recognized)
    ensures |ScanTo(observations, vocabulary, n).value.recognized| + |ScanTo(observations, vocabulary, n).value.unknown| == n
  {
    hide ValidObservation;
    if n > 0 {
      ScanDistinct(observations, vocabulary, n - 1);
      ScanRecognizes(observations, vocabulary, n - 1);
      var earlier := ScanTo(observations, vocabulary, n - 1).value.recognized;
      forall i | 0 <= i < |earlier| ensures earlier[i].binding != observations[n - 1].binding {
        assert Observation(earlier[i].binding, earlier[i].present) in observations[..n - 1];
      }
    }
  }

  lemma {:induction false} ScanUnknown(observations: seq<Observation>, vocabulary: Vocabulary, n: nat)
    requires n <= |observations| && ScanTo(observations, vocabulary, n).Some?
    ensures forall key :: key in ScanTo(observations, vocabulary, n).value.unknown <==>
      key !in vocabulary && HasAdapter(observations[..n], key)
  {
    hide ValidObservation;
    if n > 0 {
      ScanUnknown(observations, vocabulary, n - 1);
      var last := observations[n - 1];
      assert observations[..n] == observations[..n - 1] + [last];
      forall key ensures HasAdapter(observations[..n], key) <==>
        HasAdapter(observations[..n - 1], key) || key == last.binding.adapter
      {
        if key == last.binding.adapter {
          assert last in observations[..n];
        }
      }
    }
  }

  lemma {:induction false} InsertKeyLength(key: Bytes, keys: seq<Bytes>)
    ensures |InsertKey(key, keys)| <= |keys| + 1
  {
    if keys != [] {
      InsertKeyLength(key, keys[1..]);
    }
  }

  lemma {:induction false} SortedKeysLength(keys: seq<Bytes>)
    ensures |SortedKeys(keys)| <= |keys|
  {
    if keys != [] {
      SortedKeysLength(keys[..|keys| - 1]);
      InsertKeyLength(keys[|keys| - 1], SortedKeys(keys[..|keys| - 1]));
    }
  }

  /**
    The command names exactly the observations of known families, each binding
    once, and exactly the unknown families in a list the Host will accept back.
   */
  lemma CommandShape(request: Request, vocabulary: Vocabulary)
    requires Canonical(request, vocabulary).Ok?
    ensures var command := Canonical(request, vocabulary).value;
      && DistinctBindings(command.recognized) && |command.recognized| <= MAX_OBSERVATIONS
      && RecognizesExactly(request.observations, command.recognized, vocabulary)
      && (forall r :: r in command.recognized ==> ValidAdapterKey(r.binding.adapter))
      && (forall key :: key in command.unsupported <==>
            key !in vocabulary && HasAdapter(request.observations, key))
      && ValidReportKeys(command.unsupported)
  {
    hide *;
    var sorted := Sort(request.observations);
    CanonicalIsScan(request, vocabulary);
    var scan := ScanTo(sorted, vocabulary, |sorted|).value;
    assert sorted[..|sorted|] == sorted;
    SameElements(request.observations, sorted);
    AcceptedParts(request, vocabulary);
    DistinctPermutes(request.observations, sorted);
    ScanRecognizes(sorted, vocabulary, |sorted|);
    ScanDistinct(sorted, vocabulary, |sorted|);
    ScanUnknown(sorted, vocabulary, |sorted|);
    SortedKeysExact(scan.unknown);
    SortedKeysLength(scan.unknown);
    forall key | key in SortedKeys(scan.unknown) ensures HasAdapter(request.observations, key) {}
    RecognizesSame(sorted, request.observations, scan.recognized, vocabulary);
    RecognizedValid(request.observations, scan.recognized, vocabulary);
    UnknownValid(request.observations, SortedKeys(scan.unknown));
  }

  lemma CanonicalIsScan(request: Request, vocabulary: Vocabulary)
    requires Canonical(request, vocabulary).Ok?
    ensures var sorted := Sort(request.observations);
      var scan := ScanTo(sorted, vocabulary, |sorted|);
      && |sorted| <= MAX_OBSERVATIONS && |sorted| <= MAX_KEYS && scan.Some?
      && Canonical(request, vocabulary).value.recognized == scan.value.recognized
      && Canonical(request, vocabulary).value.unsupported == SortedKeys(scan.value.unknown)
  {
    hide Sort, ScanTo, ReportDigest, SortedKeys, TrimSpace;
  }

  ghost predicate AllObservationsValid(observations: seq<Observation>) {
    forall o :: o in observations ==> ValidObservation(o)
  }

  lemma AcceptedParts(request: Request, vocabulary: Vocabulary)
    requires Canonical(request, vocabulary).Ok?
    ensures Distinct(request.observations) && AllObservationsValid(request.observations)
  {
    hide Canonical, ValidHeader, ValidObservation;
    AcceptedIff(request, vocabulary);
  }

  lemma RecognizesSame(a: seq<Observation>, b: seq<Observation>, recognized: seq<Recognized>, vocabulary: Vocabulary)
    requires RecognizesExactly(a, recognized, vocabulary) && forall o :: o in a <==> o in b
    ensures RecognizesExactly(b, recognized, vocabulary)
  {}

  lemma RecognizedValid(observations: seq<Observation>, recognized: seq<Recognized>, vocabulary: Vocabulary)
    requires RecognizesExactly(observations, recognized, vocabulary) && AllObservationsValid(observations)
    ensures forall r :: r in recognized ==> ValidAdapterKey(r.binding.adapter)
  {
    hide ValidAdapterKey, ValidOccurrenceKey;
    forall r | r in recognized ensures ValidAdapterKey(r.binding.adapter) {
      assert ValidObservation(Observation(r.binding, r.present));
    }
  }

  lemma UnknownValid(observations: seq<Observation>, keys: seq<Bytes>)
    requires AllObservationsValid(observations) && Increasing(keys) && |keys| <= MAX_KEYS
    requires forall key :: key in keys ==> HasAdapter(observations, key)
    ensures ValidReportKeys(keys)
  {
    hide ValidAdapterKey, ValidOccurrenceKey, Before;
    forall i | 0 <= i < |keys| ensures ValidAdapterKey(keys[i]) {
      assert keys[i] in keys;
      var o :| o in observations && o.binding.adapter == keys[i];
      assert ValidObservation(o);
    }
  }

  lemma SameElements(a: seq<Observation>, b: seq<Observation>)
    requires multiset(a) == multiset(b)
    ensures forall o :: o in a <==> o in b
    ensures forall adapter :: HasAdapter(a, adapter) <==> HasAdapter(b, adapter)
  {
    forall o ensures o in a <==> o in b {
      assert o in a <==> o in multiset(a);
      assert o in b <==> o in multiset(b);
    }
  }

  ghost predicate DistinctBindings(recognized: seq<Recognized>) {
    forall i, j :: 0 <= i < j < |recognized| ==> recognized[i].binding != recognized[j].binding
  }
}
