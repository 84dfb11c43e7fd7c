/** What every transaction on Works and Runs keeps, table by table. */
module WorkRunInvariant {
  import opened Wrappers
  import opened Ids
  import opened Text
  import opened WorkRun

  /** The messages of a Work are its inputs 2 to head, each of admitted text. */
  ghost predicate InputsDense(works: map<Id, Work>, messages: Messages, positions: Positions) {
    && (forall slot {:trigger slot in positions} :: slot in positions <==>
          slot.work in works && 2 <= slot.input <= works[slot.work].head)
    && (forall slot {:trigger slot in positions} :: slot in positions ==>
          && positions[slot] in messages
          && InputSlot(messages[positions[slot]].work, messages[positions[slot]].input) == slot
          && ValidMessageText(messages[positions[slot]].text))
    && (forall id {:trigger id in messages} :: id in messages ==>
          var slot := InputSlot(messages[id].work, messages[id].input);
          slot in positions && positions[slot] == id)
  }

  ghost predicate WorkSound(work: Work) {
    && Admitted(work.goal, MAX_GOAL)
    && work.applied <= work.head && 1 <= work.head
    && (work.current.None? <==> work.version == 0)
    && (work.current.Some? ==>
          Admitted(work.current.value.text, MAX_UNDERSTANDING) && Admitted(work.current.value.nextStep, MAX_NEXT_STEP))
    && (work.current.Some? ==> ValidateUpdate(work.current.value.text, work.current.value.nextStep) == work.current)
    && Normalize(work.goal, MAX_GOAL) == Some(work.goal)
  }

  ghost predicate WorksSound(works: map<Id, Work>) {
    forall w {:trigger w in works} :: w in works ==> WorkSound(works[w])
  }

  /** A Run's range lies within the input it was opened on, and its messages within both limits. */
  ghost predicate RunSound(works: map<Id, Work>, messages: Messages, positions: Positions, run: Run) {
    && run.work in works
    && 1 <= run.first <= run.last <= works[run.work].head
    && run.fence >= 1
    && Bounded(Inputs(messages, positions, run.work, run.first, run.last))
    && (run.retry.Some? ==> run.state.RunFailed? || run.state.RunUnknown?)
  }

  ghost predicate RunsSound(works: map<Id, Work>, messages: Messages, positions: Positions, runs: map<Id, Run>) {
    forall r {:trigger r in runs} :: r in runs ==> RunSound(works, messages, positions, runs[r])
  }

  predicate IsUnresolved(run: Run) {
    run.state.RunActive? || Retryable(run)
  }

  /** While a Run is unresolved, its Work's version and applied position are the Run's base. */
  ghost predicate Frozen(works: map<Id, Work>, run: Run) {
    run.work in works && works[run.work].version == run.base && works[run.work].applied + 1 == run.first
  }

  /** A Work has at most one unresolved Run, and the index names it. */
  ghost predicate UnresolvedSound(works: map<Id, Work>, runs: map<Id, Run>, unresolved: map<Id, Id>) {
    && (forall w {:trigger w in unresolved} :: w in unresolved ==>
          && unresolved[w] in runs && runs[unresolved[w]].work == w
          && IsUnresolved(runs[unresolved[w]]) && Frozen(works, runs[unresolved[w]]))
    && (forall r {:trigger r in runs} :: r in runs && IsUnresolved(runs[r]) ==>
          runs[r].work in unresolved && unresolved[runs[r].work] == r)
  }

  /** An active Attempt belongs to an active Run and holds its newest fence. */
  ghost predicate AttemptSound(runs: map<Id, Run>, byFence: map<FenceKey, Id>, id: Id, attempt: Attempt) {
    && attempt.run in runs && 1 <= attempt.fence <= runs[attempt.run].fence
    && FenceKey(attempt.run, attempt.fence) in byFence && byFence[FenceKey(attempt.run, attempt.fence)] == id
    && (attempt.state.AttemptActive? ==> runs[attempt.run].state.RunActive? && attempt.fence == runs[attempt.run].fence)
  }

  ghost predicate RunAttempted(runs: map<Id, Run>, attempts: map<Id, Attempt>, byFence: map<FenceKey, Id>, r: Id)
    requires r in runs
  {
    var key := FenceKey(r, runs[r].fence);
    && key in byFence && byFence[key] in attempts
    && (runs[r].state.RunActive? ==> attempts[byFence[key]].state.AttemptActive?)
  }

  ghost predicate AttemptsSound(runs: map<Id, Run>, attempts: map<Id, Attempt>, byFence: map<FenceKey, Id>) {
    && (forall a {:trigger a in attempts} :: a in attempts ==> AttemptSound(runs, byFence, a, attempts[a]))
    && (forall k {:trigger k in byFence} :: k in byFence ==>
          byFence[k] in attempts && FenceKey(attempts[byFence[k]].run, attempts[byFence[k]].fence) == k)
    && (forall r {:trigger r in runs} :: r in runs ==> RunAttempted(runs, attempts, byFence, r))
  }

  /** A review names a committed version; the review of the current version has its exact content. */
  ghost predicate CheckSound(works: map<Id, Work>, byVersion: map<VersionKey, Id>, id: Id, check: Check) {
    && check.work in works && 1 <= check.version <= works[check.work].version
    && VersionKey(check.work, check.version) in byVersion && byVersion[VersionKey(check.work, check.version)] == id
    && (check.version == works[check.work].version ==>
          works[check.work].current.Some? && check.digest == ReviewDigest(works[check.work].current.value))
  }

  ghost predicate ChecksSound(works: map<Id, Work>, checks: map<Id, Check>, byVersion: map<VersionKey, Id>) {
    && (forall c {:trigger c in checks} :: c in checks ==> CheckSound(works, byVersion, c, checks[c]))
    && (forall k {:trigger k in byVersion} :: k in byVersion ==>
          byVersion[k] in checks && VersionKey(checks[byVersion[k]].work, checks[byVersion[k]].version) == k)
  }

  ghost predicate AcceptancesSound(checks: map<Id, Check>, byAcceptance: map<AcceptanceKey, Id>) {
    forall k {:trigger k in byAcceptance} :: k in byAcceptance ==>
      && byAcceptance[k] in checks && checks[byAcceptance[k]].work == k.work
      && checks[byAcceptance[k]].acceptance
         == Some(Acceptance(k.user, k.key, AcceptanceDigest(k.work, byAcceptance[k])))
  }

  /** A retry key names the Run it released. */
  ghost predicate RetriesSound(runs: map<Id, Run>, byRetry: map<RetryKey, Id>) {
    && (forall k {:trigger k in byRetry} :: k in byRetry ==>
          && byRetry[k] in runs && runs[byRetry[k]].work == k.work
          && runs[byRetry[k]].retry.Some? && runs[byRetry[k]].retry.value.key == k.key)
    && (forall r {:trigger r in runs} :: r in runs && runs[r].retry.Some? ==>
          RetryKey(runs[r].work, runs[r].retry.value.key) in byRetry
          && byRetry[RetryKey(runs[r].work, runs[r].retry.value.key)] == r)
  }

  ghost predicate RowInv(s: State) {
    && InputsDense(s.works, s.messages, s.byInput)
    && WorksSound(s.works)
    && RunsSound(s.works, s.messages, s.byInput, s.runs)
    && UnresolvedSound(s.works, s.runs, s.unresolved)
    && AttemptsSound(s.runs, s.attempts, s.byFence)
    && ChecksSound(s.works, s.checks, s.byVersion)
    && AcceptancesSound(s.checks, s.byAcceptance)
    && RetriesSound(s.runs, s.byRetry)
  }

  // ----- Commits -----

  /** The `i`-th Run that committed to a Work: it continued exactly where the one before stopped. */
  ghost predicate CommitAt(works: map<Id, Work>, runs: map<Id, Run>, work: Id, commits: seq<Id>, i: nat)
    requires i < |commits|
  {
    && commits[i] in runs
    && var run := runs[commits[i]];
       && run.work == work && run.state.RunSucceeded? && run.base == i
       && 1 <= run.first <= run.last
       && (i == 0 ==> run.first == 1)
       && (i > 0 ==> commits[i - 1] in runs && run.first == runs[commits[i - 1]].last + 1)
  }

  /** A Work's version counts its commits and its applied position is where the last one ended. */
  ghost predicate CommitsSound(works: map<Id, Work>, runs: map<Id, Run>, work: Id, commits: seq<Id>) {
    && (forall i {:trigger CommitAt(works, runs, work, commits, i)} :: 0 <= i < |commits| ==>
          CommitAt(works, runs, work, commits, i))
    && (work in works ==>
          && |commits| == works[work].version
          && works[work].applied
             == (if commits == [] then 0
                 else if commits[|commits| - 1] in runs then runs[commits[|commits| - 1]].last else 0))
    && (work !in works ==> commits == [])
    && (forall r {:trigger r in runs} :: r in runs && runs[r].work == work && runs[r].state.RunSucceeded? ==>
          runs[r].base < |commits| && commits[runs[r].base] == r)
  }

  ghost predicate LedgerSound(ledger: Ledger) {
    forall w {:trigger CommitsOf(ledger, w)} ::
      CommitsSound(ledger.rows.works, ledger.rows.runs, w, CommitsOf(ledger, w))
  }

  ghost predicate Inv(ledger: Ledger) {
    RowInv(ledger.rows) && LedgerSound(ledger)
  }
}
