/** The guarantees of the Run protocol, over every history of it. */
module WorkRunTheorems {
  import opened Wrappers
  import opened Ids
  import opened Text
  import opened WorkRun
  import opened WorkRunInvariant
  import opened WorkRunRuns
  import HostGate
  import Digest

  // ----- Histories -----

  lemma EmptyInv()
    ensures Inv(EMPTY)
  {
    forall w ensures CommitsSound(EMPTY.rows.works, EMPTY.rows.runs, w, CommitsOf(EMPTY, w)) {}
  }

  lemma StepKeepsInv(ledger: Ledger, op: Op)
    requires Inv(ledger)
    ensures Inv(Step(ledger, op))
  {
    hide Inv, CreateWork, Append, ClaimRun, Renew, Finish, RequestRetry, AcceptReview, Commit;
    match op
    case OpCreate(create, newWork) => CreateKeeps(ledger, create, newWork);
    case OpAppend(append, newMessage) => AppendKeeps(ledger, append, newMessage);
    case OpClaim(claim, newRun, newAttempt) => ClaimKeeps(ledger, claim, newRun, newAttempt);
    case OpRenew(key, now) => RenewKeeps(ledger, key, now);
    case OpCommit(commit, newReview, at) => CommitKeeps(ledger, commit, newReview, at);
    case OpFinish(finish, outcome, finishedAt) => FinishKeeps(ledger, finish, outcome, finishedAt);
    case OpRetry(retry) => RetryKeeps(ledger, retry);
    case OpAccept(accept) => AcceptKeeps(ledger, accept);
    case OpTransfer(work, owner) => if work in ledger.rows.works { TransferKeeps(ledger, work, owner); }
    case OpEnvironment(members, machines) => EnvironmentKeeps(ledger, members, machines);
  }

  lemma {:induction false} HistoryKeepsInv(ledger: Ledger, ops: seq<Op>)
    requires Inv(ledger)
    ensures Inv(History(ledger, ops))
    decreases |ops|
  {
    hide Inv, Step;
    if ops != [] {
      HistoryKeepsInv(ledger, ops[..|ops| - 1]);
      StepKeepsInv(History(ledger, ops[..|ops| - 1]), ops[|ops| - 1]);
    }
  }

  ghost predicate Reachable(ledger: Ledger) {
    exists ops :: ledger == History(EMPTY, ops)
  }

  lemma ReachableInv(ledger: Ledger)
    requires Reachable(ledger)
    ensures Inv(ledger)
  {
    hide Inv, History;
    EmptyInv();
    var ops :| ledger == History(EMPTY, ops);
    HistoryKeepsInv(EMPTY, ops);
  }

  /** The reachable ledgers are closed under every transaction, and start empty. */
  lemma StepsAreReachable(ledger: Ledger, op: Op)
    ensures Reachable(EMPTY) && (Reachable(ledger) ==> Reachable(Step(ledger, op)))
  {
    hide Step;
    assert EMPTY == History(EMPTY, []);
    if Reachable(ledger) {
      var ops :| ledger == History(EMPTY, ops);
      assert (ops + [op])[..|ops|] == ops;
      assert Step(ledger, op) == History(EMPTY, ops + [op]);
    }
  }

  // ----- Exactly-once application -----

  /** Input `input` is in the range of the `k`-th commit. */
  ghost predicate AppliedBy(ledger: Ledger, work: Id, input: nat, k: nat) {
    && k < |CommitsOf(ledger, work)| && CommitsOf(ledger, work)[k] in ledger.rows.runs
    && ledger.rows.runs[CommitsOf(ledger, work)[k]].first <= input <= ledger.rows.runs[CommitsOf(ledger, work)[k]].last
  }

  ghost predicate Ordered(runs: map<Id, Run>, commits: seq<Id>) {
    && (forall i :: 0 <= i < |commits| ==> commits[i] in runs && 1 <= runs[commits[i]].first <= runs[commits[i]].last)
    && (commits != [] ==> runs[commits[0]].first == 1)
    && (forall i :: 1 <= i < |commits| ==> runs[commits[i]].first == runs[commits[i - 1]].last + 1)
  }

  lemma CommitsOrdered(ledger: Ledger, work: Id)
    requires LedgerSound(ledger)
    ensures Ordered(ledger.rows.runs, CommitsOf(ledger, work))
  {
    var commits, works, runs := CommitsOf(ledger, work), ledger.rows.works, ledger.rows.runs;
    assert CommitsSound(works, runs, work, commits);
    forall i | 0 <= i < |commits| ensures commits[i] in runs && 1 <= runs[commits[i]].first <= runs[commits[i]].last {
      assert CommitAt(works, runs, work, commits, i);
    }
    if commits != [] { assert CommitAt(works, runs, work, commits, 0); }
    forall i | 1 <= i < |commits| ensures runs[commits[i]].first == runs[commits[i - 1]].last + 1 {
      assert CommitAt(works, runs, work, commits, i);
    }
  }

  lemma {:induction false} RangesAscend(runs: map<Id, Run>, commits: seq<Id>, i: nat, j: nat)
    requires Ordered(runs, commits) && i < j < |commits|
    ensures runs[commits[i]].last < runs[commits[j]].first
    decreases j
  {
    if i < j - 1 {
      RangesAscend(runs, commits, i, j - 1);
    }
  }

  lemma {:induction false} RangesCover(runs: map<Id, Run>, commits: seq<Id>, n: nat, input: nat) returns (k: nat)
    requires Ordered(runs, commits) && 0 < n <= |commits| && 1 <= input <= runs[commits[n - 1]].last
    ensures k < n && runs[commits[k]].first <= input <= runs[commits[k]].last
  {
    if input >= runs[commits[n - 1]].first {
      k := n - 1;
    } else {
      k := RangesCover(runs, commits, n - 1, input);
    }
  }

  /**
    Across expiry, fence rotation and recovery by other Machines, the Runs that
    committed to a Work apply each of its inputs 1..applied exactly once and no
    other, in commit order; the applied position never passes the head.
   */
  lemma EachInputAppliedOnce(ledger: Ledger, work: Id, input: nat)
    requires Reachable(ledger) && work in ledger.rows.works
    ensures ledger.rows.works[work].applied <= ledger.rows.works[work].head
    ensures (exists k :: AppliedBy(ledger, work, input, k)) <==> 1 <= input <= ledger.rows.works[work].applied
    ensures forall j, k :: AppliedBy(ledger, work, input, j) && AppliedBy(ledger, work, input, k) ==> j == k
  {
    hide Reachable, RowInv, LedgerSound, Ordered, AppliedBy, CommitsOf;
    ReachableInv(ledger);
    WorkBounds(ledger.rows, work);
    CommitsOrdered(ledger, work);
    LastApplied(ledger, work);
    if 1 <= input <= ledger.rows.works[work].applied {
      var k := AppliedSomewhere(ledger, work, input);
    }
    forall k | AppliedBy(ledger, work, input, k) ensures 1 <= input <= ledger.rows.works[work].applied {
      AppliedWithin(ledger, work, input, k);
    }
    forall j, k | AppliedBy(ledger, work, input, j) && AppliedBy(ledger, work, input, k) ensures j == k {
      AppliedOnlyOnce(ledger, work, input, j, k);
    }
  }

  lemma WorkBounds(s: State, work: Id)
    requires RowInv(s) && work in s.works
    ensures s.works[work].applied <= s.works[work].head
  {
    WorkOf(s, work);
  }

  lemma AppliedSomewhere(ledger: Ledger, work: Id, input: nat) returns (k: nat)
    requires Ordered(ledger.rows.runs, CommitsOf(ledger, work))
    requires var commits := CommitsOf(ledger, work);
      commits != [] && 1 <= input <= ledger.rows.runs[commits[|commits| - 1]].last
    ensures AppliedBy(ledger, work, input, k)
  {
    var commits := CommitsOf(ledger, work);
    k := RangesCover(ledger.rows.runs, commits, |commits|, input);
  }

  lemma AppliedWithin(ledger: Ledger, work: Id, input: nat, k: nat)
    requires Ordered(ledger.rows.runs, CommitsOf(ledger, work)) && AppliedBy(ledger, work, input, k)
    ensures var commits := CommitsOf(ledger, work);
      commits != [] && 1 <= input <= ledger.rows.runs[commits[|commits| - 1]].last
  {
    var commits := CommitsOf(ledger, work);
    if k < |commits| - 1 { RangesAscend(ledger.rows.runs, commits, k, |commits| - 1); }
  }

  lemma AppliedOnlyOnce(ledger: Ledger, work: Id, input: nat, j: nat, k: nat)
    requires Ordered(ledger.rows.runs, CommitsOf(ledger, work))
    requires AppliedBy(ledger, work, input, j) && AppliedBy(ledger, work, input, k)
    ensures j == k
  {
    var commits := CommitsOf(ledger, work);
    if j < k { RangesAscend(ledger.rows.runs, commits, j, k); }
    if k < j { RangesAscend(ledger.rows.runs, commits, k, j); }
  }

  lemma LastApplied(ledger: Ledger, work: Id)
    requires LedgerSound(ledger) && work in ledger.rows.works
    requires Ordered(ledger.rows.runs, CommitsOf(ledger, work))
    ensures var commits := CommitsOf(ledger, work);
      && (commits != [] ==> commits[|commits| - 1] in ledger.rows.runs)
      && ledger.rows.works[work].applied == if commits == [] then 0 else ledger.rows.runs[commits[|commits| - 1]].last
  {
    assert CommitsSound(ledger.rows.works, ledger.rows.runs, work, CommitsOf(ledger, work));
  }

  // ----- Accounting -----

  ghost function RunsOf(s: State, work: Id): set<Id> {
    set r | r in s.runs && s.runs[r].work == work
  }

  ghost function SucceededRuns(s: State, work: Id): set<Id> {
    set r | r in s.runs && s.runs[r].work == work && s.runs[r].state.RunSucceeded?
  }

  /** Failed or unknown Runs that an explicit retry let go. */
  ghost function ReleasedRuns(s: State, work: Id): set<Id> {
    set r | r in s.runs && s.runs[r].work == work && s.runs[r].retry.Some?
  }

  ghost function UnresolvedRuns(s: State, work: Id): set<Id> {
    set r | r in s.runs && s.runs[r].work == work && IsUnresolved(s.runs[r])
  }

  ghost function RetryKeys(s: State, work: Id): set<Bytes> {
    set k | k in s.byRetry && k.work == work :: k.key
  }

  lemma {:induction false} DistinctCount(ids: seq<Id>)
    requires forall i, j :: 0 <= i < j < |ids| ==> ids[i] != ids[j]
    ensures |set id | id in ids| == |ids|
  {
    if ids == [] {
      assert (set id | id in ids) == {};
    } else {
      var init, last := ids[..|ids| - 1], ids[|ids| - 1];
      DistinctCount(init);
      var earlier := set id | id in init;
      assert last !in earlier;
      assert ids == init + [last];
      assert (set id | id in ids) == earlier + {last};
    }
  }

  /** A Work's version is the number of its succeeded Runs. */
  lemma VersionCountsSuccesses(ledger: Ledger, work: Id)
    requires Reachable(ledger) && work in ledger.rows.works
    ensures |SucceededRuns(ledger.rows, work)| == ledger.rows.works[work].version
  {
    hide Reachable, RowInv;
    ReachableInv(ledger);
    var s, commits := ledger.rows, CommitsOf(ledger, work);
    assert CommitsSound(s.works, s.runs, work, commits);
    forall i, j | 0 <= i < j < |commits| ensures commits[i] != commits[j] {
      assert CommitAt(s.works, s.runs, work, commits, i) && CommitAt(s.works, s.runs, work, commits, j);
    }
    DistinctCount(commits);
    forall r ensures r in SucceededRuns(s, work) <==> r in (set id | id in commits) {
      if r in commits {
        var i :| 0 <= i < |commits| && commits[i] == r;
        assert CommitAt(s.works, s.runs, work, commits, i);
      }
    }
    assert SucceededRuns(s, work) == set id | id in commits;
  }

  lemma UnresolvedAtMostOne(s: State, work: Id)
    requires UnresolvedSound(s.works, s.runs, s.unresolved)
    ensures |UnresolvedRuns(s, work)| <= 1
    ensures UnresolvedRuns(s, work) != {} <==> work in s.unresolved
    ensures work in s.unresolved ==> UnresolvedRuns(s, work) == {s.unresolved[work]}
  {
    if work in s.unresolved {
      assert UnresolvedRuns(s, work) == {s.unresolved[work]};
    } else {
      forall r | r in UnresolvedRuns(s, work) ensures false {}
      assert UnresolvedRuns(s, work) == {};
    }
  }

  /**
    The Runs ever created for a Work are those that succeeded, those released by
    a retry and at most one that is unresolved; each retry key released one Run.
   */
  lemma RunAccounting(ledger: Ledger, work: Id)
    requires Reachable(ledger) && work in ledger.rows.works
    ensures |RunsOf(ledger.rows, work)|
      == ledger.rows.works[work].version + |ReleasedRuns(ledger.rows, work)| + |UnresolvedRuns(ledger.rows, work)|
    ensures |UnresolvedRuns(ledger.rows, work)| <= 1
    ensures |ReleasedRuns(ledger.rows, work)| == |RetryKeys(ledger.rows, work)|
  {
    hide Reachable;
    ReachableInv(ledger);
    var s := ledger.rows;
    VersionCountsSuccesses(ledger, work);
    UnresolvedAtMostOne(s, work);
    Partition(s, work);
    ReleasedCount(s, work);
  }

  lemma Partition(s: State, work: Id)
    requires RunsSound(s.works, s.messages, s.byInput, s.runs)
    ensures |RunsOf(s, work)| == |SucceededRuns(s, work)| + |ReleasedRuns(s, work)| + |UnresolvedRuns(s, work)|
  {
    hide Inputs, Bounded;
    forall r | r in RunsOf(s, work)
      ensures r in SucceededRuns(s, work) + ReleasedRuns(s, work) + UnresolvedRuns(s, work)
      ensures !(r in SucceededRuns(s, work) && r in ReleasedRuns(s, work))
    {
      assert RunSound(s.works, s.messages, s.byInput, s.runs[r]);
    }
    assert RunsOf(s, work) == SucceededRuns(s, work) + ReleasedRuns(s, work) + UnresolvedRuns(s, work);
    assert SucceededRuns(s, work) !! ReleasedRuns(s, work);
    assert SucceededRuns(s, work) + ReleasedRuns(s, work) !! UnresolvedRuns(s, work);
  }

  lemma ReleasedCount(s: State, work: Id)
    requires RetriesSound(s.runs, s.byRetry)
    ensures |ReleasedRuns(s, work)| == |RetryKeys(s, work)|
  {
    hide RetriesSound;
    ReleasedKeys(s, work);
    SameSize(ReleasedRuns(s, work), RetryKeys(s, work), s, work);
  }

  lemma ReleasedKeys(s: State, work: Id)
    requires RetriesSound(s.runs, s.byRetry)
    ensures forall r :: r in ReleasedRuns(s, work) ==>
      s.runs[r].retry.value.key in RetryKeys(s, work)
      && s.byRetry[RetryKey(work, s.runs[r].retry.value.key)] == r
    ensures forall k :: k in RetryKeys(s, work) ==>
      RetryKey(work, k) in s.byRetry && s.byRetry[RetryKey(work, k)] in ReleasedRuns(s, work)
      && s.runs[s.byRetry[RetryKey(work, k)]].retry.value.key == k
  {
    forall r | r in ReleasedRuns(s, work)
      ensures s.runs[r].retry.value.key in RetryKeys(s, work)
    {
      assert RetryKey(work, s.runs[r].retry.value.key).key in RetryKeys(s, work);
    }
  }

  /** Runs and keys correspond one to one. */
  lemma {:induction false} SameSize(runs: set<Id>, keys: set<Bytes>, s: State, work: Id)
    requires forall r :: r in runs ==>
      (r in s.runs && s.runs[r].retry.Some? && s.runs[r].retry.value.key in keys
       && RetryKey(work, s.runs[r].retry.value.key) in s.byRetry
       && s.byRetry[RetryKey(work, s.runs[r].retry.value.key)] == r)
    requires forall k :: k in keys ==>
      (RetryKey(work, k) in s.byRetry && s.byRetry[RetryKey(work, k)] in runs
       && s.runs[s.byRetry[RetryKey(work, k)]].retry.value.key == k)
    ensures |runs| == |keys|
    decreases |runs|
  {
    if runs == {} {
      assert keys == {};
    } else {
      var r :| r in runs;
      SameSize(runs - {r}, keys - {s.runs[r].retry.value.key}, s, work);
    }
  }

  // ----- Commits -----

  /**
    A commit succeeds exactly when its update is valid, its Attempt is current
    with a live lease, and it echoes its claim: the staleness guards on the Work
    never refuse such an Attempt, because the Work is frozen at the Run's base.
   */
  lemma CommitIff(ledger: Ledger, command: CommitCommand, newReview: Id, now: int)
    requires Reachable(ledger) && newReview !in ledger.rows.checks
    ensures Commit(ledger.rows, command, newReview, now).1.Ok? <==>
      && ValidateUpdate(command.understanding, command.nextStep).Some?
      && Authorized(ledger.rows, command.key)
      && now < ledger.rows.attempts[command.key.attempt].leaseExpiresAt
      && command.base == ledger.rows.runs[command.key.run].base
      && command.last == ledger.rows.runs[command.key.run].last
  {
    hide Reachable, LedgerSound, ValidateUpdate, RowInv, Committed, Authorized;
    ReachableInv(ledger);
    if Authorized(ledger.rows, command.key) {
      AuthorizedFacts(ledger.rows, command.key);
    }
  }

  /** Everything the commit's guards ask of the Work of a current Attempt. */
  lemma AuthorizedFacts(s: State, key: AttemptKey)
    requires RowInv(s) && Authorized(s, key)
    ensures var run := s.runs[key.run];
      && run.work in s.works
      && s.works[run.work].version == run.base && s.works[run.work].applied == run.first - 1
      && run.last <= s.works[run.work].head
      && VersionKey(run.work, s.works[run.work].version + 1) !in s.byVersion
  {
    BaseIsFrozen(s, key);
    NextVersionUnreviewed(s.works, s.checks, s.byVersion, s.runs[key.run].work);
    hide RowInv;
  }

  /**
    A commit moves its Work, and no other, to the end of the Run's range under the
    next version, and asks for a review exactly when the Host wants one and no
    newer input is waiting.
   */
  lemma CommitMovesWork(ledger: Ledger, command: CommitCommand, newReview: Id, now: int)
    requires Reachable(ledger) && Commit(ledger.rows, command, newReview, now).1.Ok?
    ensures Authorized(ledger.rows, command.key)
    ensures var (s, t) := (ledger.rows, Commit(ledger.rows, command, newReview, now).0);
      var run := s.runs[command.key.run];
      && run.work in s.works && t.works.Keys == s.works.Keys
      && t.works[run.work].applied == run.last == command.last > s.works[run.work].applied
      && t.works[run.work].version == s.works[run.work].version + 1 == command.base + 1
      && t.works[run.work].head == s.works[run.work].head && t.works[run.work].owner == s.works[run.work].owner
      && t.works[run.work].current == ValidateUpdate(command.understanding, command.nextStep)
      && (forall w :: w in s.works && w != run.work ==> t.works[w] == s.works[w])
      && t.runs[command.key.run].state.RunSucceeded? && run.work !in t.unresolved
      && (t.checks != s.checks <==> command.reviewRequired && run.last == s.works[run.work].head)
      && (t.checks != s.checks ==>
            newReview in t.checks && CurrentReview(t.works[run.work], t.checks[newReview])
            && t.checks[newReview].work == run.work && t.checks[newReview].acceptance.None?)
  {
    hide Reachable, Inv, ValidateUpdate, ReviewDigest, Authorized;
    ReachableInv(ledger);
    CommitSucceeds(ledger.rows, command, newReview, now);
    AuthorizedRange(ledger, command.key);
  }

  lemma AuthorizedRange(ledger: Ledger, key: AttemptKey)
    requires Inv(ledger) && Authorized(ledger.rows, key)
    ensures key.run in ledger.rows.runs && key.attempt in ledger.rows.attempts
    ensures var run := ledger.rows.runs[key.run];
      run.first <= run.last && run.work in ledger.rows.works && ledger.rows.works[run.work].applied == run.first - 1
  {
    hide LedgerSound, Inputs, Bounded;
    BaseIsFrozen(ledger.rows, key);
    RunOf(ledger.rows, key.run);
  }

  /** Exactly a current Attempt with a live lease is renewed, for a full lease from now. */
  lemma RenewIff(s: State, key: AttemptKey, now: int)
    ensures Renew(s, key, now).1.Ok? <==> Authorized(s, key) && now < s.attempts[key.attempt].leaseExpiresAt
    ensures Renew(s, key, now).1.Ok? ==>
      var t := Renew(s, key, now).0;
      && Renew(s, key, now).1.value == now + LEASE && Authorized(t, key)
      && t == s.(attempts := t.attempts) && t.attempts[key.attempt].leaseExpiresAt == now + LEASE
      && forall a :: a in s.attempts && a != key.attempt ==> a in t.attempts && t.attempts[a] == s.attempts[a]
  {
    var t := Renew(s, key, now).0;
    if Renew(s, key, now).1.Ok? {
      assert key.attempt in t.attempts;
      forall a | a in s.attempts && a != key.attempt ensures a in t.attempts && t.attempts[a] == s.attempts[a] {}
    }
  }

  /** While a Run is unresolved its Work's version and applied position stay at the Run's base. */
  lemma UnresolvedFreezesWork(ledger: Ledger, run: Id)
    requires Reachable(ledger) && run in ledger.rows.runs && IsUnresolved(ledger.rows.runs[run])
    ensures var row := ledger.rows.runs[run];
      && row.work in ledger.rows.works
      && ledger.rows.works[row.work].version == row.base && ledger.rows.works[row.work].applied == row.first - 1
  {
    hide Reachable, LedgerSound;
    ReachableInv(ledger);
    assert Frozen(ledger.rows.works, ledger.rows.runs[run]);
  }

  /** Only the newest fence of a Run holds an active Attempt. */
  lemma OneActiveAttempt(ledger: Ledger, a: Id, b: Id)
    requires Reachable(ledger) && a in ledger.rows.attempts && b in ledger.rows.attempts
    requires ledger.rows.attempts[a].state.AttemptActive? && ledger.rows.attempts[b].state.AttemptActive?
    ensures ledger.rows.attempts[a].run == ledger.rows.attempts[b].run ==> a == b
    ensures ledger.rows.attempts[a].run in ledger.rows.runs
    ensures ledger.rows.attempts[a].fence == ledger.rows.runs[ledger.rows.attempts[a].run].fence
  {
    hide Reachable, LedgerSound;
    ReachableInv(ledger);
    var s := ledger.rows;
    assert AttemptSound(s.runs, s.byFence, a, s.attempts[a]) && AttemptSound(s.runs, s.byFence, b, s.attempts[b]);
  }

  // ----- What rows never take back -----

  ghost predicate RunAdvances(before: Run, after: Run) {
    && SameRange(before, after) && before.fence <= after.fence
    && (!before.state.RunActive? ==> after.state == before.state && after.fence == before.fence)
    && (before.retry.Some? ==> after.retry == before.retry)
  }

  ghost predicate AttemptAdvances(before: Attempt, after: Attempt) {
    && after.run == before.run && after.machine == before.machine && after.fence == before.fence
    && (!before.state.AttemptActive? ==> after == before)
  }

  ghost predicate RunsAdvance(runs: map<Id, Run>, later: map<Id, Run>) {
    forall r {:trigger r in runs} :: r in runs ==> r in later && RunAdvances(runs[r], later[r])
  }

  ghost predicate AttemptsAdvance(attempts: map<Id, Attempt>, later: map<Id, Attempt>) {
    forall a {:trigger a in attempts} :: a in attempts ==> a in later && AttemptAdvances(attempts[a], later[a])
  }

  ghost predicate Evolves(s: State, t: State) {
    && RunsAdvance(s.runs, t.runs)
    && AttemptsAdvance(s.attempts, t.attempts)
    && (forall k {:trigger k in s.byRetry} :: k in s.byRetry ==> k in t.byRetry && t.byRetry[k] == s.byRetry[k])
    && (forall w {:trigger w in s.works} :: w in s.works ==> w in t.works && t.works[w].space == s.works[w].space)
  }

  lemma EvolvesReflexive(s: State)
    ensures Evolves(s, s)
  {}

  lemma RunsAdvanceTransitive(a: map<Id, Run>, b: map<Id, Run>, c: map<Id, Run>)
    requires RunsAdvance(a, b) && RunsAdvance(b, c)
    ensures RunsAdvance(a, c)
  {
    forall r | r in a ensures r in c && RunAdvances(a[r], c[r]) {
      assert RunAdvances(a[r], b[r]) && RunAdvances(b[r], c[r]);
    }
  }

  lemma AttemptsAdvanceTransitive(a: map<Id, Attempt>, b: map<Id, Attempt>, c: map<Id, Attempt>)
    requires AttemptsAdvance(a, b) && AttemptsAdvance(b, c)
    ensures AttemptsAdvance(a, c)
  {
    forall r | r in a ensures r in c && AttemptAdvances(a[r], c[r]) {
      assert AttemptAdvances(a[r], b[r]) && AttemptAdvances(b[r], c[r]);
    }
  }

  lemma EvolvesTransitive(s: State, t: State, u: State)
    requires Evolves(s, t) && Evolves(t, u)
    ensures Evolves(s, u)
  {
    RunsAdvanceTransitive(s.runs, t.runs, u.runs);
    AttemptsAdvanceTransitive(s.attempts, t.attempts, u.attempts);
    hide RunsAdvance, AttemptsAdvance;
  }

  /** What a recovery changes: the old Attempt expires and a new one takes the next fence. */
  ghost predicate Recovers(s: State, t: State, claim: Claim, command: ClaimCommand) {
    && claim.run in s.runs && claim.attempt !in s.attempts && s.runs[claim.run].state.RunActive?
    && CurrentAttempt(s, claim.run).Some?
    && var run := s.runs[claim.run].(fence := s.runs[claim.run].fence + 1);
       var previous := CurrentAttempt(s, claim.run).value;
       && t == s.(runs := s.runs[claim.run := run],
                  attempts := s.attempts[previous := s.attempts[previous].(state := AttemptExpired)][claim.attempt :=
                    Attempt(claim.run, command.machine, run.fence, AttemptActive, command.leasedAt + LEASE)],
                  byFence := s.byFence[FenceKey(claim.run, run.fence) := claim.attempt])
  }

  /** What opening a Run changes. */
  ghost predicate Opens(s: State, t: State, claim: Claim, command: ClaimCommand) {
    && claim.run !in s.runs && claim.attempt !in s.attempts
    && claim.run in t.runs && t.runs[claim.run].work !in s.unresolved
    && t.runs[claim.run].state.RunActive? && t.runs[claim.run].fence == 1
    && t == s.(runs := s.runs[claim.run := t.runs[claim.run]],
               unresolved := s.unresolved[t.runs[claim.run].work := claim.run],
               attempts := s.attempts[claim.attempt :=
                 Attempt(claim.run, command.machine, 1, AttemptActive, command.leasedAt + LEASE)],
               byFence := s.byFence[FenceKey(claim.run, 1) := claim.attempt])
  }

  /** The descriptor of a claim is read from the rows it left. */
  ghost predicate Describes(t: State, claim: Claim) {
    && claim.attempt in t.attempts && t.attempts[claim.attempt].leaseExpiresAt == claim.leaseExpiresAt
    && claim.run in t.runs
    && var run := t.runs[claim.run];
       && claim.fence == run.fence && claim.last == run.last && claim.work == run.work && claim.base == run.base
       && run.work in t.works
       && var work := t.works[run.work];
          && claim.goal == work.goal
          && claim.understanding == (if work.current.Some? then work.current.value.text else [])
          && claim.nextStep == (if work.current.Some? then work.current.value.nextStep else [])
          && claim.messages == Inputs(t.messages, t.byInput, run.work, run.first, run.last)
  }

  lemma GrantDescribes(s: State, t: State, run: Id, command: ClaimCommand, newAttempt: Id)
    requires run in t.runs
    ensures var (u, r) := Grant(s, t, run, command, newAttempt);
      if r.Err? then u == s
      else
        && r.value.run == run && r.value.attempt == newAttempt && newAttempt !in t.attempts
        && u == t.(attempts := t.attempts[newAttempt :=
                     Attempt(run, command.machine, t.runs[run].fence, AttemptActive, command.leasedAt + LEASE)],
                   byFence := t.byFence[FenceKey(run, t.runs[run].fence) := newAttempt])
        && Describes(u, r.value)
  {
    hide Inputs;
  }

  lemma ClaimCases(s: State, command: ClaimCommand, newRun: Id, newAttempt: Id)
    ensures var (t, r) := ClaimRun(s, command, newRun, newAttempt);
      if r.Err? then t == s
      else
        && ActiveMachineSpace(s, command.machine).Ok? && Describes(t, r.value)
        && (Recovers(s, t, r.value, command) || Opens(s, t, r.value, command))
  {
    hide Grant, Expired, Ready, Describes, CurrentAttempt, Rotated, Opened, Recovers, Opens;
    if ActiveMachineSpace(s, command.machine).Ok? {
      var space := ActiveMachineSpace(s, command.machine).value;
      if command.expired.Some? && Expired(s, command.expired.value, space, command.selectedAt) {
        ExpiredIs(s, command.expired.value, space, command.selectedAt);
        RecoverCase(s, command.expired.value, space, command, newAttempt);
      } else if command.ready.Some? && Ready(s, command.ready.value, space) {
        ReadyIs(s, command.ready.value, space);
        if newRun !in s.runs && command.ready.value !in s.unresolved {
          OpenCase(s, command.ready.value, newRun, command, newAttempt);
        }
      }
    }
  }

  lemma RecoverCase(s: State, run: Id, space: Id, command: ClaimCommand, newAttempt: Id)
    requires Expired(s, run, space, command.selectedAt)
    ensures var (t, r) := Grant(s, Rotated(s, run, CurrentAttempt(s, run).value), run, command, newAttempt);
      if r.Err? then t == s else Describes(t, r.value) && Recovers(s, t, r.value, command)
  {
    hide Grant, Describes, CurrentAttempt, Expired;
    ExpiredIs(s, run, space, command.selectedAt);
    ExpiredActive(s, run, space, command.selectedAt);
    GrantDescribes(s, Rotated(s, run, CurrentAttempt(s, run).value), run, command, newAttempt);
  }

  lemma OpenCase(s: State, work: Id, newRun: Id, command: ClaimCommand, newAttempt: Id)
    requires work in s.works && newRun !in s.runs && work !in s.unresolved
    ensures var (t, r) := Grant(s, Opened(s, work, newRun), newRun, command, newAttempt);
      if r.Err? then t == s else Describes(t, r.value) && Opens(s, t, r.value, command)
  {
    hide Grant, Describes, SelectInputEnd;
    GrantDescribes(s, Opened(s, work, newRun), newRun, command, newAttempt);
  }

  lemma ExpiredActive(s: State, run: Id, space: Id, now: int)
    requires Expired(s, run, space, now)
    ensures s.runs[run].state.RunActive? && CurrentAttempt(s, run).Some?
    ensures s.attempts[CurrentAttempt(s, run).value].state.AttemptActive?
  {}

  lemma ClaimEvolves(ledger: Ledger, command: ClaimCommand, newRun: Id, newAttempt: Id)
    requires Inv(ledger)
    ensures Evolves(ledger.rows, ClaimRun(ledger.rows, command, newRun, newAttempt).0)
  {
    hide ClaimRun, Describes, Inv, Evolves;
    var s := ledger.rows;
    ClaimCases(s, command, newRun, newAttempt);
    var (t, r) := ClaimRun(s, command, newRun, newAttempt);
    if r.Err? {
      EvolvesReflexive(s);
    } else if Recovers(s, t, r.value, command) {
      CurrentIsActive(ledger, r.value.run);
      RecoverEvolves(s, t, r.value, command);
    } else {
      OpenEvolves(s, t, r.value, command);
    }
  }

  lemma CurrentIsActive(ledger: Ledger, run: Id)
    requires Inv(ledger) && run in ledger.rows.runs && ledger.rows.runs[run].state.RunActive?
    ensures CurrentAttempt(ledger.rows, run).Some?
    ensures ledger.rows.attempts[CurrentAttempt(ledger.rows, run).value].state.AttemptActive?
  {
    hide LedgerSound;
    assert RunAttempted(ledger.rows.runs, ledger.rows.attempts, ledger.rows.byFence, run);
  }

  lemma RecoverEvolves(s: State, t: State, claim: Claim, command: ClaimCommand)
    requires Recovers(s, t, claim, command)
    requires s.attempts[CurrentAttempt(s, claim.run).value].state.AttemptActive?
    ensures Evolves(s, t)
  {
    hide CurrentAttempt;
    assert RunsAdvance(s.runs, t.runs);
    assert AttemptsAdvance(s.attempts, t.attempts);
  }

  lemma OpenEvolves(s: State, t: State, claim: Claim, command: ClaimCommand)
    requires Opens(s, t, claim, command)
    ensures Evolves(s, t)
  {}

  lemma CommitEvolves(s: State, command: CommitCommand, newReview: Id, now: int)
    ensures Evolves(s, Commit(s, command, newReview, now).0)
  {
    hide ValidateUpdate, ReviewDigest, Fresh, Committed, Evolves;
    var t := Commit(s, command, newReview, now).0;
    EvolvesReflexive(s);
    if Commit(s, command, newReview, now).1.Ok? {
      CommitSucceeds(s, command, newReview, now);
      var update := ValidateUpdate(command.understanding, command.nextStep).value;
      var run := s.runs[command.key.run];
      CommittedEvolves(s, command, update, newReview, command.reviewRequired && run.last == s.works[run.work].head);
    }
  }

  lemma CommittedEvolves(s: State, command: CommitCommand, update: Understanding, newReview: Id, review: bool)
    requires Authorized(s, command.key) && s.runs[command.key.run].work in s.works
    ensures Evolves(s, Committed(s, command, update, newReview, review))
  {
    hide ReviewDigest;
    var t := Committed(s, command, update, newReview, review);
    assert RunsAdvance(s.runs, t.runs);
    assert AttemptsAdvance(s.attempts, t.attempts);
  }

  lemma RetryEvolves(ledger: Ledger, command: RetryCommand)
    requires Inv(ledger)
    ensures Evolves(ledger.rows, RequestRetry(ledger.rows, command).0)
  {
    hide Normalize, Inv, Evolves, RunsAdvance;
    var s, t := ledger.rows, RequestRetry(ledger.rows, command).0;
    EvolvesReflexive(s);
    if t != s {
      ReleasedAdvances(s.runs, s.unresolved[command.work], t.runs[s.unresolved[command.work]]);
      ReleasedEvolves(s, t);
    }
  }

  lemma ReleasedAdvances(runs: map<Id, Run>, r: Id, run: Run)
    requires r in runs && Retryable(runs[r]) && run == runs[r].(retry := run.retry)
    ensures RunsAdvance(runs, runs[r := run])
  {}

  lemma ReleasedEvolves(s: State, t: State)
    requires RunsAdvance(s.runs, t.runs) && t == s.(runs := t.runs, unresolved := t.unresolved, byRetry := t.byRetry)
    requires forall k :: k in s.byRetry ==> k in t.byRetry && t.byRetry[k] == s.byRetry[k]
    ensures Evolves(s, t)
  {
    hide RunsAdvance;
  }

  lemma RowsEvolve(s: State, t: State)
    requires RunsAdvance(s.runs, t.runs) && AttemptsAdvance(s.attempts, t.attempts) && t.byRetry == s.byRetry
    requires SpacesStay(s.works, t.works)
    ensures Evolves(s, t)
  {
    hide RunsAdvance, AttemptsAdvance;
  }

  ghost predicate SpacesStay(works: map<Id, Work>, later: map<Id, Work>) {
    forall w {:trigger w in works} :: w in works ==> w in later && later[w].space == works[w].space
  }

  lemma SpacesSame(works: map<Id, Work>, w: Id, row: Work)
    requires w in works ==> row.space == works[w].space
    ensures SpacesStay(works, works) && SpacesStay(works, works[w := row])
  {}

  lemma RunsStay(s: State)
    ensures RunsAdvance(s.runs, s.runs) && AttemptsAdvance(s.attempts, s.attempts)
  {}

  lemma CreateEvolves(s: State, command: CreateCommand, newWork: Id)
    ensures Evolves(s, CreateWork(s, command, newWork).0)
  {
    hide Normalize, CreateDigest, Active, RunsAdvance, AttemptsAdvance, Evolves, SpacesStay;
    var t := CreateWork(s, command, newWork).0;
    RunsStay(s);
    if newWork in t.works && newWork !in s.works {
      SpacesSame(s.works, newWork, t.works[newWork]);
    } else {
      EvolvesReflexive(s);
    }
    if t != s { RowsEvolve(s, t); }
  }

  lemma AppendEvolves(s: State, command: AppendCommand, newMessage: Id)
    ensures Evolves(s, Append(s, command, newMessage).0)
  {
    hide Normalize, MessageDigest, ValidMessageText, Active, RunsAdvance, AttemptsAdvance, Evolves, SpacesStay;
    var t := Append(s, command, newMessage).0;
    RunsStay(s);
    EvolvesReflexive(s);
    if t != s {
      SpacesSame(s.works, command.work, t.works[command.work]);
      RowsEvolve(s, t);
    }
  }

  lemma OneAttempt(attempts: map<Id, Attempt>, a: Id, attempt: Attempt)
    requires a in attempts && AttemptAdvances(attempts[a], attempt)
    ensures AttemptsAdvance(attempts, attempts[a := attempt])
  {}

  lemma OneRun(runs: map<Id, Run>, r: Id, run: Run)
    requires r in runs && RunAdvances(runs[r], run)
    ensures RunsAdvance(runs, runs[r := run])
  {}

  lemma RenewEvolves(s: State, key: AttemptKey, now: int)
    ensures Evolves(s, Renew(s, key, now).0)
  {
    hide RunsAdvance, AttemptsAdvance, Evolves, SpacesStay;
    var t := Renew(s, key, now).0;
    EvolvesReflexive(s);
    if t != s {
      RunsStay(s);
      OneAttempt(s.attempts, key.attempt, t.attempts[key.attempt]);
      SpacesKept(s.works);
      RowsEvolve(s, t);
    }
  }

  lemma SpacesKept(works: map<Id, Work>)
    ensures SpacesStay(works, works)
  {}

  lemma FinishEvolves(s: State, key: AttemptKey, outcome: Outcome, now: int)
    ensures Evolves(s, Finish(s, key, outcome, now).0)
  {
    hide RunsAdvance, AttemptsAdvance, Evolves, SpacesStay;
    var t := Finish(s, key, outcome, now).0;
    EvolvesReflexive(s);
    if t != s {
      OneAttempt(s.attempts, key.attempt, t.attempts[key.attempt]);
      OneRun(s.runs, key.run, t.runs[key.run]);
      SpacesKept(s.works);
      RowsEvolve(s, t);
    }
  }

  lemma AcceptedOnlyChecks(s: State, command: AcceptCommand)
    ensures var t := AcceptReview(s, command).0;
      t == s.(checks := t.checks, byAcceptance := t.byAcceptance)
  {
    hide Normalize, AcceptanceDigest, CurrentReview, Active;
  }

  lemma AcceptEvolves(s: State, command: AcceptCommand)
    ensures Evolves(s, AcceptReview(s, command).0)
  {
    hide AcceptReview, RunsAdvance, AttemptsAdvance, Evolves, SpacesStay;
    var t := AcceptReview(s, command).0;
    EvolvesReflexive(s);
    if t != s {
      RunsStay(s);
      SpacesKept(s.works);
      AcceptedOnlyChecks(s, command);
      RowsEvolve(s, t);
    }
  }

  lemma EnvironmentEvolves(s: State, t: State)
    requires t == s.(works := t.works, members := t.members, machines := t.machines)
    requires forall w :: w in s.works ==> w in t.works && t.works[w].space == s.works[w].space
    ensures Evolves(s, t)
  {
    RunsStay(s);
    hide RunsAdvance, AttemptsAdvance;
  }

  lemma StepEvolves(ledger: Ledger, op: Op)
    requires Inv(ledger)
    ensures Evolves(ledger.rows, Step(ledger, op).rows)
  {
    hide Inv, Evolves, CommitsOf, CreateWork, Append, ClaimRun, Renew, Commit, Finish, RequestRetry, AcceptReview;
    var s := ledger.rows;
    match op
    case OpCreate(create, newWork) => CreateEvolves(s, create, newWork);
    case OpAppend(append, newMessage) => AppendEvolves(s, append, newMessage);
    case OpClaim(claim, newRun, newAttempt) => ClaimEvolves(ledger, claim, newRun, newAttempt);
    case OpRenew(key, now) => RenewEvolves(s, key, now);
    case OpCommit(commit, newReview, at) => CommitEvolves(s, commit, newReview, at);
    case OpFinish(finish, outcome, finishedAt) => FinishEvolves(s, finish, outcome, finishedAt);
    case OpRetry(retry) => RetryEvolves(ledger, retry);
    case OpAccept(accept) => AcceptEvolves(s, accept);
    case OpTransfer(work, owner) => EnvironmentEvolves(s, Apply(s, op));
    case OpEnvironment(members, machines) => EnvironmentEvolves(s, Apply(s, op));
  }

  lemma {:induction false} HistoryEvolves(ledger: Ledger, ops: seq<Op>)
    requires Inv(ledger)
    ensures Evolves(ledger.rows, History(ledger, ops).rows)
    decreases |ops|
  {
    hide Evolves, Step, Inv;
    if ops == [] {
      EvolvesReflexive(ledger.rows);
    } else {
      var init := ops[..|ops| - 1];
      HistoryEvolves(ledger, init);
      HistoryKeepsInv(ledger, init);
      StepEvolves(History(ledger, init), ops[|ops| - 1]);
      EvolvesTransitive(ledger.rows, History(ledger, init).rows, History(ledger, ops).rows);
    }
  }

  /** An Attempt that lost its fence or its Run's activity never has any authority again. */
  lemma LostAuthorityIsForever(ledger: Ledger, key: AttemptKey, ops: seq<Op>)
    requires Reachable(ledger) && key.run in ledger.rows.runs && key.attempt in ledger.rows.attempts
    requires ledger.rows.attempts[key.attempt].run == key.run
    requires ledger.rows.attempts[key.attempt].fence < ledger.rows.runs[key.run].fence
      || !ledger.rows.runs[key.run].state.RunActive? || !ledger.rows.attempts[key.attempt].state.AttemptActive?
    ensures !Authorized(History(ledger, ops).rows, key)
  {
    hide History, Reachable, Inv;
    ReachableInv(ledger);
    HistoryEvolves(ledger, ops);
    var s, t := ledger.rows, History(ledger, ops).rows;
    assert RunAdvances(s.runs[key.run], t.runs[key.run]);
    assert AttemptAdvances(s.attempts[key.attempt], t.attempts[key.attempt]);
  }

  // ----- Claims -----

  /** A claim rotates the fence of the Run it recovers, or opens its Work's next range. */
  lemma ClaimGrants(ledger: Ledger, command: ClaimCommand, newRun: Id, newAttempt: Id)
    requires Reachable(ledger) && ClaimRun(ledger.rows, command, newRun, newAttempt).1.Ok?
    ensures var (t, r) := ClaimRun(ledger.rows, command, newRun, newAttempt);
      var claim := r.value;
      && claim.run in t.runs && claim.attempt in t.attempts && claim.work in t.works
      && Authorized(t, AttemptKey(command.machine, claim.run, claim.attempt, claim.fence))
      && t.attempts[claim.attempt].leaseExpiresAt == claim.leaseExpiresAt == command.leasedAt + LEASE
      && claim.base == t.works[claim.work].version
      && claim.messages == Inputs(t.messages, t.byInput, claim.work, t.works[claim.work].applied + 1, claim.last)
      && (claim.run in ledger.rows.runs ==> claim.fence == ledger.rows.runs[claim.run].fence + 1)
      && (claim.run !in ledger.rows.runs ==> claim.fence == 1 && claim.work !in ledger.rows.unresolved)
  {
    hide Reachable, Inputs, Inv, ClaimRun;
    ReachableInv(ledger);
    var (t, r) := ClaimRun(ledger.rows, command, newRun, newAttempt);
    ClaimKeeps(ledger, command, newRun, newAttempt);
    ClaimCases(ledger.rows, command, newRun, newAttempt);
    ClaimedFrozen(ledger.(rows := t), r.value.run);
  }

  lemma ClaimedFrozen(ledger: Ledger, run: Id)
    requires Inv(ledger) && run in ledger.rows.runs && IsUnresolved(ledger.rows.runs[run])
    ensures Frozen(ledger.rows.works, ledger.rows.runs[run])
  {
    hide LedgerSound;
  }

  /** Every Run claim the server grants passes the Host's own gate. */
  lemma ClaimsAreAcceptable(ledger: Ledger, command: ClaimCommand, newRun: Id, newAttempt: Id)
    requires Reachable(ledger) && ClaimRun(ledger.rows, command, newRun, newAttempt).1.Ok?
    ensures HostGate.AcceptableClaim(ClaimRun(ledger.rows, command, newRun, newAttempt).1.value)
  {
    hide Reachable, Inv, RowInv, Normalize, ValidateUpdate, ValidMessageText, ClaimRun, Recovers, Opens, Inputs,
      InputsDense;
    ReachableInv(ledger);
    var (t, r) := ClaimRun(ledger.rows, command, newRun, newAttempt);
    ClaimKeeps(ledger, command, newRun, newAttempt);
    ClaimCases(ledger.rows, command, newRun, newAttempt);
    InvParts(ledger.(rows := t));
    ClaimSound(t, r.value.run);
    var run := t.runs[r.value.run];
    InputsValid(t.works, t.messages, t.byInput, run.work, run.first, run.last);
  }

  lemma ClaimSound(s: State, run: Id)
    requires RowInv(s) && run in s.runs
    ensures RunSound(s.works, s.messages, s.byInput, s.runs[run]) && WorkSound(s.works[s.runs[run].work])
    ensures InputsDense(s.works, s.messages, s.byInput)
  {
    hide Inputs, Bounded;
    assert RunSound(s.works, s.messages, s.byInput, s.runs[run]);
  }

  lemma {:induction false} InputsValid(works: map<Id, Work>, messages: Messages, positions: Positions, work: Id,
                                       first: nat, last: nat)
    requires InputsDense(works, messages, positions)
    ensures forall i :: 0 <= i < |Inputs(messages, positions, work, first, last)| ==>
      ValidMessageText(Inputs(messages, positions, work, first, last)[i].text)
    decreases last
  {
    hide ValidMessageText;
    if last >= first && last > 0 {
      InputsValid(works, messages, positions, work, first, last - 1);
      var slot := InputSlot(work, last);
      if slot in positions { assert ValidMessageText(messages[positions[slot]].text); }
    }
  }

  // ----- Retry -----

  /**
    A failed or unknown Run blocks its Work: no claim opens another Run until a
    member explicitly asks for a retry.
   */
  lemma BlockedUntilRetry(ledger: Ledger, run: Id, command: ClaimCommand, newRun: Id, newAttempt: Id)
    requires Reachable(ledger) && run in ledger.rows.runs && Retryable(ledger.rows.runs[run])
    ensures var (t, r) := ClaimRun(ledger.rows, command, newRun, newAttempt);
      r.Ok? ==> r.value.work != ledger.rows.runs[run].work
  {
    hide Reachable, Inv, ClaimRun;
    ReachableInv(ledger);
    ClaimCases(ledger.rows, command, newRun, newAttempt);
    var (t, r) := ClaimRun(ledger.rows, command, newRun, newAttempt);
    UnresolvedIndexed(ledger, run);
    if r.Ok? && Recovers(ledger.rows, t, r.value, command) {
      UnresolvedIndexed(ledger, r.value.run);
    }
  }

  lemma UnresolvedIndexed(ledger: Ledger, run: Id)
    requires Inv(ledger) && run in ledger.rows.runs && IsUnresolved(ledger.rows.runs[run])
    ensures ledger.rows.runs[run].work in ledger.rows.unresolved
    ensures ledger.rows.unresolved[ledger.rows.runs[run].work] == run
  {
    hide LedgerSound;
  }

  /** A retry key releases at most one Run; its replays are no-ops and anyone else's use of it conflicts. */
  lemma RetryReplay(ledger: Ledger, command: RetryCommand, ops: seq<Op>, replay: RetryCommand)
    requires Reachable(ledger) && RequestRetry(ledger.rows, command).1.Ok?
    requires replay.work == command.work && Normalize(replay.key, MAX_KEY) == Normalize(command.key, MAX_KEY)
    requires replay.member.space == command.member.space
    requires Active(History(Step(ledger, OpRetry(command)), ops).rows, replay.member)
    ensures var t := History(Step(ledger, OpRetry(command)), ops).rows;
      RequestRetry(t, replay) ==
        if replay.member.user == command.member.user then (t, Ok(())) else (t, Err(IdempotencyConflict))
  {
    hide Reachable, History, Normalize, Inv, RequestRetry, Evolves;
    ReachableInv(ledger);
    var next := Step(ledger, OpRetry(command));
    StepKeepsInv(ledger, OpRetry(command));
    HistoryEvolves(next, ops);
    RetryRecorded(ledger, command);
    RecordedReplays(next.rows, History(next, ops).rows, command, replay);
  }

  ghost predicate RetryOnRecord(s: State, command: RetryCommand, key: Bytes) {
    var k := RetryKey(command.work, key);
    && command.work in s.works && s.works[command.work].space == command.member.space
    && k in s.byRetry && s.byRetry[k] in s.runs && s.runs[s.byRetry[k]].retry.Some?
    && s.runs[s.byRetry[k]].retry.value.user == command.member.user
  }

  lemma RetryRecorded(ledger: Ledger, command: RetryCommand)
    requires Inv(ledger) && RequestRetry(ledger.rows, command).1.Ok?
    ensures Normalize(command.key, MAX_KEY).Some?
    ensures RetryOnRecord(Step(ledger, OpRetry(command)).rows, command, Normalize(command.key, MAX_KEY).value)
  {
    hide Normalize, Inv;
  }

  lemma RecordedReplays(s: State, t: State, command: RetryCommand, replay: RetryCommand)
    requires Normalize(command.key, MAX_KEY).Some? && RetryOnRecord(s, command, Normalize(command.key, MAX_KEY).value)
    requires Evolves(s, t) && Active(t, replay.member)
    requires replay.work == command.work && Normalize(replay.key, MAX_KEY) == Normalize(command.key, MAX_KEY)
    requires replay.member.space == command.member.space
    ensures RequestRetry(t, replay) ==
      if replay.member.user == command.member.user then (t, Ok(())) else (t, Err(IdempotencyConflict))
  {
    hide Normalize;
    var k := RetryKey(command.work, Normalize(command.key, MAX_KEY).value);
    assert RunAdvances(s.runs[s.byRetry[k]], t.runs[s.byRetry[k]]);
  }

  // ----- Review -----

  /** The content-digest guard of an acceptance cannot fail once the version matches. */
  lemma ReviewContentIsCurrent(ledger: Ledger, review: Id)
    requires Reachable(ledger) && review in ledger.rows.checks
    ensures var check := ledger.rows.checks[review];
      && check.work in ledger.rows.works && check.version <= ledger.rows.works[check.work].version
      && (CurrentReview(ledger.rows.works[check.work], check) <==>
            check.version == ledger.rows.works[check.work].version
            && ledger.rows.works[check.work].applied == ledger.rows.works[check.work].head)
      && forall other ::
           (other in ledger.rows.checks && ledger.rows.checks[other].work == check.work
            && ledger.rows.checks[other].version == check.version) ==> other == review
  {
    hide Reachable, LedgerSound, ReviewDigest;
    ReachableInv(ledger);
    var s := ledger.rows;
    assert CheckSound(s.works, s.byVersion, review, s.checks[review]);
    forall other | other in s.checks && s.checks[other].work == s.checks[review].work
      && s.checks[other].version == s.checks[review].version
      ensures other == review
    {
      assert CheckSound(s.works, s.byVersion, other, s.checks[other]);
    }
  }

  /** The two parts of an understanding are recovered from the digest a review stores. */
  lemma ReviewDigestInjective(a: Understanding, b: Understanding)
    requires Admitted(a.text, MAX_UNDERSTANDING) && Admitted(a.nextStep, MAX_NEXT_STEP)
    requires Admitted(b.text, MAX_UNDERSTANDING) && Admitted(b.nextStep, MAX_NEXT_STEP)
    ensures ReviewDigest(a) == ReviewDigest(b) <==> a == b
  {
    hide Digest.Preimage, ValidText;
    if ReviewDigest(a) == ReviewDigest(b) {
      var x, y := [a.text, a.nextStep], [b.text, b.nextStep];
      Digest.PreimageInjective(x, y);
      assert x[0] == y[0] && x[1] == y[1];
    }
  }
}
