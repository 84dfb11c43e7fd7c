/** Exactly when the Run protocol's requests succeed, and what their idempotency keys keep for ever. */
module WorkRunOutcomes {
  import opened Wrappers
  import opened Ids
  import opened Text
  import opened WorkRun
  import opened WorkRunInvariant
  import opened WorkRunRuns
  import opened WorkRunTheorems
  import Digest

  // ----- Claims -----

  /** No Run of the Work is active, or failed or unknown without a retry. */
  ghost predicate Unblocked(s: State, work: Id) {
    forall r {:trigger r in s.runs} :: r in s.runs && s.runs[r].work == work ==> !IsUnresolved(s.runs[r])
  }

  /** An expired Run of the Machine's Space, or a Work of it with unapplied input and no Run in its way. */
  ghost predicate Claimable(s: State, command: ClaimCommand) {
    && ActiveMachineSpace(s, command.machine).Ok?
    && var space := ActiveMachineSpace(s, command.machine).value;
       if command.expired.Some? && Expired(s, command.expired.value, space, command.selectedAt)
       then Expired(s, command.expired.value, space, command.expiredAt)
       else
         && command.ready.Some? && Ready(s, command.ready.value, space)
         && Unblocked(s, command.ready.value)
  }

  lemma UnblockedIff(ledger: Ledger, work: Id)
    requires Inv(ledger)
    ensures Unblocked(ledger.rows, work) <==> work !in ledger.rows.unresolved
  {
    hide LedgerSound, Frozen, Retryable;
    var s := ledger.rows;
    if work in s.unresolved { assert s.unresolved[work] in s.runs; }
  }

  lemma ExpiredOf(s: State, run: Id, space: Id, now: int, later: int)
    requires Expired(s, run, space, now)
    ensures CurrentAttempt(s, run).Some? && CurrentAttempt(s, run).value in s.attempts
    ensures Expired(s, run, space, later) <==> s.attempts[CurrentAttempt(s, run).value].leaseExpiresAt <= later
    ensures run in s.runs && s.runs[run].work in s.works
  {}

  lemma NextFenceIsFree(s: State, run: Id)
    requires AttemptsSound(s.runs, s.attempts, s.byFence) && run in s.runs
    ensures FenceKey(run, s.runs[run].fence + 1) !in s.byFence
  {
    var key := FenceKey(run, s.runs[run].fence + 1);
    if key in s.byFence { IndexedAttempt(s.runs, s.attempts, s.byFence, key); }
  }

  lemma GrantSucceeds(s: State, t: State, run: Id, command: ClaimCommand, newAttempt: Id)
    requires run in t.runs && newAttempt !in t.attempts && t.runs[run].work in t.works
    requires FenceKey(run, t.runs[run].fence) !in t.byFence
    ensures Grant(s, t, run, command, newAttempt).1.Ok?
  {
    hide Inputs;
  }

  lemma RecoverySucceeds(ledger: Ledger, run: Id, space: Id, command: ClaimCommand, newAttempt: Id)
    requires Inv(ledger) && Expired(ledger.rows, run, space, command.selectedAt) && newAttempt !in ledger.rows.attempts
    ensures CurrentAttempt(ledger.rows, run).Some? && CurrentAttempt(ledger.rows, run).value in ledger.rows.attempts
    ensures run in ledger.rows.runs
    ensures Grant(ledger.rows, Rotated(ledger.rows, run, CurrentAttempt(ledger.rows, run).value), run, command,
                  newAttempt).1.Ok?
  {
    hide Inv, Grant, AttemptsSound, Expired, CurrentAttempt;
    InvAttempts(ledger);
    ExpiredOf(ledger.rows, run, space, command.selectedAt, command.selectedAt);
    NextFenceIsFree(ledger.rows, run);
    GrantSucceeds(ledger.rows, Rotated(ledger.rows, run, CurrentAttempt(ledger.rows, run).value), run, command, newAttempt);
  }

  lemma InvAttempts(ledger: Ledger)
    requires Inv(ledger)
    ensures AttemptsSound(ledger.rows.runs, ledger.rows.attempts, ledger.rows.byFence)
    ensures UnresolvedSound(ledger.rows.works, ledger.rows.runs, ledger.rows.unresolved)
  {}

  lemma OpeningSucceeds(ledger: Ledger, work: Id, newRun: Id, command: ClaimCommand, newAttempt: Id)
    requires Inv(ledger) && work in ledger.rows.works
    requires newRun !in ledger.rows.runs && newAttempt !in ledger.rows.attempts
    ensures Grant(ledger.rows, Opened(ledger.rows, work, newRun), newRun, command, newAttempt).1.Ok?
  {
    hide LedgerSound, Grant, AttemptsSound, UnresolvedSound, RunsSound, ChecksSound, InputsDense, SelectInputEnd;
    UnopenedFence(ledger.rows, newRun);
    GrantSucceeds(ledger.rows, Opened(ledger.rows, work, newRun), newRun, command, newAttempt);
  }

  /**
    Under fresh identities exactly the claimable Runs are granted: the uniqueness
    of fences and of unresolved Runs never turns a selected row into a failure.
   */
  lemma ClaimIff(ledger: Ledger, command: ClaimCommand, newRun: Id, newAttempt: Id)
    requires Reachable(ledger) && newRun !in ledger.rows.runs && newAttempt !in ledger.rows.attempts
    ensures ClaimRun(ledger.rows, command, newRun, newAttempt).1.Ok? <==> Claimable(ledger.rows, command)
  {
    hide Reachable, Inv, Expired, Ready, Grant, Rotated, Opened, CurrentAttempt, Unblocked;
    ReachableInv(ledger);
    var s := ledger.rows;
    if ActiveMachineSpace(s, command.machine).Ok? {
      var space := ActiveMachineSpace(s, command.machine).value;
      if command.expired.Some? && Expired(s, command.expired.value, space, command.selectedAt) {
        ExpiredOf(s, command.expired.value, space, command.selectedAt, command.expiredAt);
        RecoverySucceeds(ledger, command.expired.value, space, command, newAttempt);
      } else if command.ready.Some? && Ready(s, command.ready.value, space) {
        UnblockedIff(ledger, command.ready.value);
        ReadyIs(s, command.ready.value, space);
        OpeningSucceeds(ledger, command.ready.value, newRun, command, newAttempt);
      }
    }
  }

  // ----- What a renewal buys -----

  /** The Attempt keeps its Run, under a lease until `until`, for as long as the Run is active. */
  ghost predicate Held(s: State, run: Id, attempt: Id, until: int) {
    && run in s.runs && attempt in s.attempts
    && (s.runs[run].state.RunActive? ==>
          CurrentAttempt(s, run) == Some(attempt) && until <= s.attempts[attempt].leaseExpiresAt)
  }

  /** Renewals read the clock at `from` or later, and claims select before `until`. */
  predicate Timely(op: Op, from: int, until: int) {
    && (op.OpRenew? ==> from <= op.now)
    && (op.OpClaim? ==> op.claim.selectedAt < until)
  }

  /** A claim of an existing Run found its lease expired. */
  lemma RecoversExpired(s: State, command: ClaimCommand, newRun: Id, newAttempt: Id)
    requires ClaimRun(s, command, newRun, newAttempt).1.Ok?
    requires ClaimRun(s, command, newRun, newAttempt).1.value.run in s.runs
    ensures var run := ClaimRun(s, command, newRun, newAttempt).1.value.run;
      && CurrentAttempt(s, run).Some? && CurrentAttempt(s, run).value in s.attempts && s.runs[run].state.RunActive?
      && s.attempts[CurrentAttempt(s, run).value].leaseExpiresAt <= command.selectedAt
  {
    hide Grant, Ready, Rotated, Opened, CurrentAttempt;
    var space := ActiveMachineSpace(s, command.machine).value;
    if command.expired.Some? && Expired(s, command.expired.value, space, command.selectedAt) {
      var run := command.expired.value;
      ExpiredIs(s, run, space, command.selectedAt);
      RotatedRuns(s, run, CurrentAttempt(s, run).value);
      GrantDescribes(s, Rotated(s, run, CurrentAttempt(s, run).value), run, command, newAttempt);
    } else {
      ReadyIs(s, command.ready.value, space);
      OpenedRuns(s, command.ready.value, newRun);
      GrantDescribes(s, Opened(s, command.ready.value, newRun), newRun, command, newAttempt);
    }
  }

  lemma RotatedRuns(s: State, run: Id, previous: Id)
    requires run in s.runs && previous in s.attempts
    ensures run in Rotated(s, run, previous).runs
  {}

  lemma OpenedRuns(s: State, work: Id, newRun: Id)
    requires work in s.works
    ensures newRun in Opened(s, work, newRun).runs
  {}

  lemma ClaimKeepsHeld(ledger: Ledger, command: ClaimCommand, newRun: Id, newAttempt: Id, run: Id, attempt: Id, until: int)
    requires Inv(ledger) && Held(ledger.rows, run, attempt, until) && command.selectedAt < until
    ensures Held(ClaimRun(ledger.rows, command, newRun, newAttempt).0, run, attempt, until)
    ensures var r := ClaimRun(ledger.rows, command, newRun, newAttempt).1; r.Ok? ==> r.value.run != run
  {
    hide Inv, ClaimRun, Describes;
    var s := ledger.rows;
    ClaimCases(s, command, newRun, newAttempt);
    var (t, r) := ClaimRun(s, command, newRun, newAttempt);
    if r.Ok? && r.value.run in s.runs {
      RecoversExpired(s, command, newRun, newAttempt);
      CurrentOwns(ledger, r.value.run);
      if s.runs[run].state.RunActive? { CurrentOwns(ledger, run); }
    }
  }

  lemma CurrentOwns(ledger: Ledger, run: Id)
    requires Inv(ledger) && run in ledger.rows.runs && CurrentAttempt(ledger.rows, run).Some?
    ensures ledger.rows.attempts[CurrentAttempt(ledger.rows, run).value].run == run
  {
    hide LedgerSound, UnresolvedSound, RunsSound, WorksSound, InputsDense;
    InvAttempts(ledger);
    var s := ledger.rows;
    assert FenceKey(run, s.runs[run].fence) in s.byFence;
  }

  /** Runs may end but keep their fences, and no lease gets shorter than `until`. */
  ghost predicate LeasesKept(s: State, t: State, until: int) {
    && t.byFence == s.byFence
    && (forall r {:trigger r in s.runs} :: r in s.runs ==>
          r in t.runs && t.runs[r].fence == s.runs[r].fence && (t.runs[r].state.RunActive? ==> s.runs[r].state.RunActive?))
    && (forall a {:trigger a in s.attempts} :: a in s.attempts ==> a in t.attempts)
    && (forall a {:trigger a in s.attempts} :: a in s.attempts && until <= s.attempts[a].leaseExpiresAt ==>
          until <= t.attempts[a].leaseExpiresAt)
  }

  lemma LeasesKeepHeld(s: State, t: State, run: Id, attempt: Id, until: int)
    requires Held(s, run, attempt, until) && LeasesKept(s, t, until)
    ensures Held(t, run, attempt, until)
  {}

  lemma OthersKeepLeases(s: State, op: Op, from: int)
    requires !op.OpClaim? && Timely(op, from, from + LEASE)
    ensures LeasesKept(s, Apply(s, op), from + LEASE)
  {
    hide CreateWork, Append, AcceptReview, Commit, Finish, RequestRetry, Renew, LeasesKept, SameLeases;
    var t, until := Apply(s, op), from + LEASE;
    match op
    case OpRenew(key, now) => RenewKeepsLeases(s, key, now, from);
    case OpCommit(commit, newReview, at) => CommitKeepsLeases(s, commit, newReview, at, until);
    case OpFinish(finish, outcome, finishedAt) => FinishKeepsLeases(s, finish, outcome, finishedAt, until);
    case OpRetry(retry) => RetryKeepsLeases(s, retry, until);
    case _ =>
      WorkStepsKeepLeases(s, op);
      SameLeasesKept(s, t, until);
  }

  lemma WorkStepsKeepLeases(s: State, op: Op)
    requires op.OpCreate? || op.OpAppend? || op.OpAccept? || op.OpTransfer? || op.OpEnvironment?
    ensures SameLeases(s, Apply(s, op))
  {
    hide CreateWork, Append, AcceptReview, SameLeases;
    match op
    case OpCreate(create, newWork) => CreateKeepsLeases(s, create, newWork);
    case OpAppend(append, newMessage) => AppendKeepsLeases(s, append, newMessage);
    case OpAccept(accept) => AcceptKeepsLeases(s, accept);
    case _ => WorksKeepLeases(s, Apply(s, op));
  }

  /** The tables that hold Runs and leases are as they were. */
  ghost predicate SameLeases(s: State, t: State) {
    t.byFence == s.byFence && t.runs == s.runs && t.attempts == s.attempts
  }

  lemma SameLeasesKept(s: State, t: State, until: int)
    requires SameLeases(s, t)
    ensures LeasesKept(s, t, until)
  {}

  lemma WorksKeepLeases(s: State, t: State)
    requires t == s.(works := t.works, byCreation := t.byCreation, messages := t.messages, byInput := t.byInput,
                     byMessageKey := t.byMessageKey, members := t.members, machines := t.machines)
    ensures SameLeases(s, t)
  {}

  lemma CreateKeepsLeases(s: State, command: CreateCommand, newWork: Id)
    ensures SameLeases(s, CreateWork(s, command, newWork).0)
  {
    hide Normalize, CreateDigest, Active, SameLeases;
    WorksKeepLeases(s, s);
    var t := CreateWork(s, command, newWork).0;
    if t != s { WorksKeepLeases(s, t); }
  }

  lemma AppendKeepsLeases(s: State, command: AppendCommand, newMessage: Id)
    ensures SameLeases(s, Append(s, command, newMessage).0)
  {
    hide Normalize, MessageDigest, ValidMessageText, Active, SameLeases;
    WorksKeepLeases(s, s);
    var t := Append(s, command, newMessage).0;
    if t != s { WorksKeepLeases(s, t); }
  }

  lemma AcceptKeepsLeases(s: State, command: AcceptCommand)
    ensures SameLeases(s, AcceptReview(s, command).0)
  {
    hide AcceptReview;
    AcceptedOnlyChecks(s, command);
  }

  lemma RenewKeepsLeases(s: State, key: AttemptKey, now: int, from: int)
    requires from <= now
    ensures LeasesKept(s, Renew(s, key, now).0, from + LEASE)
  {
    hide LeasesKept;
    LeasesAlike(s, from + LEASE);
    if Renew(s, key, now).1.Ok? {
      LeaseMoves(s, key.attempt, s.attempts[key.attempt].(leaseExpiresAt := now + LEASE), from + LEASE);
    }
  }

  lemma LeasesAlike(s: State, until: int)
    ensures LeasesKept(s, s, until)
  {}

  lemma LeaseMoves(s: State, a: Id, attempt: Attempt, until: int)
    requires a in s.attempts && (until <= s.attempts[a].leaseExpiresAt ==> until <= attempt.leaseExpiresAt)
    ensures LeasesKept(s, s.(attempts := s.attempts[a := attempt]), until)
  {}

  lemma LeaseEnds(s: State, a: Id, attempt: Attempt, r: Id, run: Run, until: int)
    requires a in s.attempts && s.attempts[a].leaseExpiresAt == attempt.leaseExpiresAt
    requires r in s.runs && run.fence == s.runs[r].fence && !run.state.RunActive?
    ensures LeasesKept(s, s.(attempts := s.attempts[a := attempt], runs := s.runs[r := run]), until)
  {}

  lemma CommitKeepsLeases(s: State, command: CommitCommand, newReview: Id, now: int, until: int)
    ensures LeasesKept(s, Commit(s, command, newReview, now).0, until)
  {
    hide ValidateUpdate, ReviewDigest, Fresh;
  }

  lemma FinishKeepsLeases(s: State, key: AttemptKey, outcome: Outcome, now: int, until: int)
    ensures LeasesKept(s, Finish(s, key, outcome, now).0, until)
  {
    hide LeasesKept;
    LeasesAlike(s, until);
    var t := Finish(s, key, outcome, now).0;
    if t != s {
      LeaseEnds(s, key.attempt, t.attempts[key.attempt], key.run, t.runs[key.run], until);
    }
  }

  lemma RetryKeepsLeases(s: State, command: RetryCommand, until: int)
    ensures LeasesKept(s, RequestRetry(s, command).0, until)
  {
    hide Normalize, Active, LeasesKept, Retryable;
    LeasesAlike(s, until);
    var t := RequestRetry(s, command).0;
    if t != s { ReleaseKeepsLeases(s, t, s.unresolved[command.work], until); }
  }

  lemma ReleaseKeepsLeases(s: State, t: State, r: Id, until: int)
    requires r in s.runs && r in t.runs && t.runs == s.runs[r := s.runs[r].(retry := t.runs[r].retry)]
    requires t.byFence == s.byFence && t.attempts == s.attempts
    ensures LeasesKept(s, t, until)
  {}

  lemma StepKeepsHeld(ledger: Ledger, op: Op, run: Id, attempt: Id, from: int)
    requires Inv(ledger) && Held(ledger.rows, run, attempt, from + LEASE) && Timely(op, from, from + LEASE)
    ensures Held(Step(ledger, op).rows, run, attempt, from + LEASE)
  {
    hide Inv, Held, ClaimRun, LeasesKept, CreateWork, Append, AcceptReview, Commit, Finish, RequestRetry, Renew, CommitsOf;
    if op.OpClaim? {
      ClaimKeepsHeld(ledger, op.claim, op.newRun, op.newAttempt, run, attempt, from + LEASE);
    } else {
      OthersKeepLeases(ledger.rows, op, from);
      LeasesKeepHeld(ledger.rows, Apply(ledger.rows, op), run, attempt, from + LEASE);
    }
  }

  lemma {:induction false} HistoryKeepsHeld(ledger: Ledger, ops: seq<Op>, run: Id, attempt: Id, from: int)
    requires Inv(ledger) && Held(ledger.rows, run, attempt, from + LEASE)
    requires forall i :: 0 <= i < |ops| ==> Timely(ops[i], from, from + LEASE)
    ensures Inv(History(ledger, ops)) && Held(History(ledger, ops).rows, run, attempt, from + LEASE)
    decreases |ops|
  {
    hide Inv, Held, Step, Timely;
    if ops != [] {
      HistoryKeepsHeld(ledger, ops[..|ops| - 1], run, attempt, from);
      StepKeepsHeld(History(ledger, ops[..|ops| - 1]), ops[|ops| - 1], run, attempt, from);
      StepKeepsInv(History(ledger, ops[..|ops| - 1]), ops[|ops| - 1]);
    }
  }

  /**
    A renewal at `now` keeps everyone else away from the Run for a whole lease:
    whatever ran in between, on a clock that does not go back before `now`, no
    claim that selects before `now + LEASE` is granted that Run.
   */
  lemma RenewalProtects(ledger: Ledger, key: AttemptKey, now: int, ops: seq<Op>, command: ClaimCommand, newRun: Id,
                        newAttempt: Id)
    requires Reachable(ledger) && Renew(ledger.rows, key, now).1.Ok?
    requires forall i :: 0 <= i < |ops| ==> Timely(ops[i], now, now + LEASE)
    requires command.selectedAt < now + LEASE
    ensures var r := ClaimRun(History(Step(ledger, OpRenew(key, now)), ops).rows, command, newRun, newAttempt).1;
      r.Ok? ==> r.value.run != key.run
  {
    hide Reachable, Inv, History, ClaimRun, Held, Timely, Renew;
    ReachableInv(ledger);
    var next := Step(ledger, OpRenew(key, now));
    StepKeepsInv(ledger, OpRenew(key, now));
    RenewedIsHeld(ledger, key, now);
    HistoryKeepsHeld(next, ops, key.run, key.attempt, now);
    ClaimKeepsHeld(History(next, ops), command, newRun, newAttempt, key.run, key.attempt, now + LEASE);
  }

  lemma RenewedIsHeld(ledger: Ledger, key: AttemptKey, now: int)
    requires Inv(ledger) && Renew(ledger.rows, key, now).1.Ok?
    ensures Held(Renew(ledger.rows, key, now).0, key.run, key.attempt, now + LEASE)
  {
    hide LedgerSound, UnresolvedSound, RunsSound, WorksSound, InputsDense;
    InvAttempts(ledger);
    assert AttemptSound(ledger.rows.runs, ledger.rows.byFence, key.attempt, ledger.rows.attempts[key.attempt]);
  }

  // ----- Unresolved outcomes and retry -----

  /**
    Exactly a current Attempt with a live lease may report that it failed or lost
    its outcome. Its authority ends and nothing of the Work moves; the Run keeps
    blocking the Work and becomes the one a retry releases.
   */
  lemma FinishIff(ledger: Ledger, key: AttemptKey, outcome: Outcome, now: int)
    requires Reachable(ledger)
    ensures Finish(ledger.rows, key, outcome, now).1.Ok? <==>
      && !outcome.OutcomeOther? && Authorized(ledger.rows, key)
      && now < ledger.rows.attempts[key.attempt].leaseExpiresAt
    ensures Finish(ledger.rows, key, outcome, now).1.Ok? ==>
      var (s, t) := (ledger.rows, Finish(ledger.rows, key, outcome, now).0);
      && t == s.(runs := t.runs, attempts := t.attempts)
      && key.run in t.runs && key.run in s.runs && SameRange(s.runs[key.run], t.runs[key.run])
      && (t.runs[key.run].state.RunFailed? <==> outcome.OutcomeFailed?)
      && Retryable(t.runs[key.run])
      && t.runs[key.run].work in t.unresolved && t.unresolved[t.runs[key.run].work] == key.run
      && !Authorized(t, key)
  {
    hide Reachable, LedgerSound, InputsDense, ChecksSound, AttemptsSound;
    ReachableInv(ledger);
    if Finish(ledger.rows, key, outcome, now).1.Ok? {
      BaseIsFrozen(ledger.rows, key);
      RunOf(ledger.rows, key.run);
    }
  }

  ghost predicate RetryWaits(s: State, work: Id, run: Id) {
    run in s.runs && s.runs[run].work == work && Retryable(s.runs[run])
  }

  lemma RetryWaitsIff(ledger: Ledger, work: Id)
    requires Inv(ledger)
    ensures (exists run :: RetryWaits(ledger.rows, work, run)) <==>
      && work in ledger.rows.unresolved && ledger.rows.unresolved[work] in ledger.rows.runs
      && Retryable(ledger.rows.runs[ledger.rows.unresolved[work]])
  {
    hide Inv, UnresolvedSound;
    InvAttempts(ledger);
    var s := ledger.rows;
    if work in s.unresolved {
      if Retryable(s.runs[s.unresolved[work]]) { assert RetryWaits(s, work, s.unresolved[work]); }
    }
    forall run | RetryWaits(s, work, run) ensures work in s.unresolved && s.unresolved[work] == run {
      UnresolvedIndexed(ledger, run);
    }
  }

  /** A fresh retry key is honoured exactly for an active member of a Work that waits for a retry. */
  lemma RetryIff(ledger: Ledger, command: RetryCommand)
    requires Reachable(ledger) && Normalize(command.key, MAX_KEY).Some?
    requires RetryKey(command.work, Normalize(command.key, MAX_KEY).value) !in ledger.rows.byRetry
    ensures RequestRetry(ledger.rows, command).1.Ok? <==>
      && Active(ledger.rows, command.member)
      && command.work in ledger.rows.works && ledger.rows.works[command.work].space == command.member.space
      && exists run :: RetryWaits(ledger.rows, command.work, run)
  {
    hide Reachable, Inv, Normalize, RetryWaits;
    ReachableInv(ledger);
    RetryWaitsIff(ledger, command.work);
  }

  /**
    A retry reopens its Work where the released Run had started: nothing of the
    Work moved, and its next claim selects from the same first input.
   */
  lemma RetryReopens(ledger: Ledger, command: RetryCommand, run: Id)
    requires Reachable(ledger) && RequestRetry(ledger.rows, command).1.Ok?
    requires RetryWaits(ledger.rows, command.work, run)
    requires RetryKey(command.work, Normalize(command.key, MAX_KEY).value) !in ledger.rows.byRetry
    ensures var (s, t) := (ledger.rows, RequestRetry(ledger.rows, command).0);
      && t == s.(runs := t.runs, unresolved := t.unresolved, byRetry := t.byRetry)
      && command.work in t.works && Ready(t, command.work, command.member.space) && Unblocked(t, command.work)
      && t.works[command.work].applied + 1 == s.runs[run].first
      && run in t.runs && t.runs[run].retry.Some? && t.runs[run].retry.value.user == command.member.user
  {
    hide Reachable, Inv, Normalize, Unblocked, RetryWaits;
    ReachableInv(ledger);
    StepKeepsInv(ledger, OpRetry(command));
    RetryWaitsIff(ledger, command.work);
    WaitingRun(ledger, command.work, run);
    UnblockedIff(Step(ledger, OpRetry(command)), command.work);
  }

  lemma WaitingRun(ledger: Ledger, work: Id, run: Id)
    requires Inv(ledger) && RetryWaits(ledger.rows, work, run)
    ensures var s := ledger.rows;
      && work in s.unresolved && s.unresolved[work] == run && run in s.runs && work in s.works
      && s.works[work].applied + 1 == s.runs[run].first <= s.works[work].head
  {
    hide LedgerSound, Bounded, Inputs;
    RunOf(ledger.rows, run);
  }

  // ----- Review -----

  /**
    A fresh acceptance is recorded exactly when the owner, an active member, names
    an open review of the current version with no newer input waiting.
   */
  lemma AcceptIff(ledger: Ledger, command: AcceptCommand)
    requires Reachable(ledger) && Normalize(command.key, MAX_KEY).Some?
    requires AcceptanceKey(command.work, command.member.user, Normalize(command.key, MAX_KEY).value)
             !in ledger.rows.byAcceptance
    ensures AcceptReview(ledger.rows, command).0 != ledger.rows <==>
      var s := ledger.rows;
      && Active(s, command.member)
      && command.work in s.works && s.works[command.work].space == command.member.space
      && s.works[command.work].owner == command.member.user
      && command.review in s.checks && s.checks[command.review].work == command.work
      && s.checks[command.review].acceptance.None?
      && s.checks[command.review].version == s.works[command.work].version
      && s.works[command.work].applied == s.works[command.work].head
  {
    hide Reachable, Normalize, CurrentReview, AcceptanceDigest;
    if command.review in ledger.rows.checks {
      ReviewContentIsCurrent(ledger, command.review);
      if ledger.rows.checks[command.review].acceptance.None? { AcceptChanges(ledger.rows, command); }
    }
  }

  /** An acceptance that is not a replay does change the store. */
  lemma AcceptChanges(s: State, command: AcceptCommand)
    requires Normalize(command.key, MAX_KEY).Some?
    requires AcceptanceKey(command.work, command.member.user, Normalize(command.key, MAX_KEY).value) !in s.byAcceptance
    requires command.review in s.checks && s.checks[command.review].acceptance.None?
    ensures AcceptReview(s, command).1.Ok? <==> AcceptReview(s, command).0 != s
  {
    hide Normalize, CurrentReview, AcceptanceDigest;
    var request := AcceptanceKey(command.work, command.member.user, Normalize(command.key, MAX_KEY).value);
    assert AcceptReview(s, command).1.Ok? ==> request in AcceptReview(s, command).0.byAcceptance;
  }

  // ----- What request keys keep -----

  ghost predicate Extends<K, V>(before: map<K, V>, after: map<K, V>) {
    forall k {:trigger k in before} :: k in before ==> k in after && after[k] == before[k]
  }

  ghost predicate WorksExtend(before: map<Id, Work>, after: map<Id, Work>) {
    forall w {:trigger w in before} :: w in before ==>
      && w in after && after[w].space == before[w].space
      && after[w].goal == before[w].goal && after[w].digest == before[w].digest
  }

  /** Works keep their creation, messages never change, and no request key is forgotten. */
  ghost predicate RequestsKept(s: State, t: State) {
    && Extends(s.byCreation, t.byCreation) && WorksExtend(s.works, t.works)
    && Extends(s.messages, t.messages) && Extends(s.byMessageKey, t.byMessageKey)
    && Extends(s.byAcceptance, t.byAcceptance)
  }

  lemma ExtendsAlike<K, V>(before: map<K, V>)
    ensures Extends(before, before)
  {}

  lemma ExtendsOne<K, V>(before: map<K, V>, k: K, v: V)
    requires k !in before || before[k] == v
    ensures Extends(before, before[k := v])
  {}

  lemma WorksExtendOne(before: map<Id, Work>, w: Id, row: Work)
    requires w in before ==> row.space == before[w].space && row.goal == before[w].goal && row.digest == before[w].digest
    ensures WorksExtend(before, before) && WorksExtend(before, before[w := row])
  {}

  lemma RequestsAlike(s: State)
    ensures RequestsKept(s, s)
  {}

  lemma RequestsKeptTransitive(s: State, t: State, u: State)
    requires RequestsKept(s, t) && RequestsKept(t, u)
    ensures RequestsKept(s, u)
  {}

  lemma CreateKeepsRequests(s: State, command: CreateCommand, newWork: Id)
    ensures RequestsKept(s, CreateWork(s, command, newWork).0)
  {
    hide Normalize, CreateDigest, Active, Extends, WorksExtend;
    RequestsAlike(s);
    var t := CreateWork(s, command, newWork).0;
    if t != s {
      WorksExtendOne(s.works, newWork, t.works[newWork]);
      var key := Normalize(command.key, MAX_KEY).value;
      ExtendsOne(s.byCreation, CreationKey(command.creator, key), newWork);
      ExtendsAlike(s.messages);
      ExtendsAlike(s.byMessageKey);
      ExtendsAlike(s.byAcceptance);
    }
  }

  lemma AppendKeepsRequests(s: State, command: AppendCommand, newMessage: Id)
    ensures RequestsKept(s, Append(s, command, newMessage).0)
  {
    hide Normalize, MessageDigest, ValidMessageText, Active, Extends, WorksExtend;
    RequestsAlike(s);
    var t := Append(s, command, newMessage).0;
    if t != s {
      WorksExtendOne(s.works, command.work, t.works[command.work]);
      var key := Normalize(command.key, MAX_KEY).value;
      ExtendsAlike(s.byCreation);
      ExtendsOne(s.messages, newMessage, t.messages[newMessage]);
      ExtendsOne(s.byMessageKey, MessageKey(command.work, command.author.user, key), newMessage);
      ExtendsAlike(s.byAcceptance);
    }
  }

  lemma AcceptKeepsRequests(s: State, command: AcceptCommand)
    ensures RequestsKept(s, AcceptReview(s, command).0)
  {
    hide Normalize, AcceptanceDigest, CurrentReview, Active, Extends, WorksExtend;
    RequestsAlike(s);
    var t := AcceptReview(s, command).0;
    if t != s {
      WorksExtendOne(s.works, command.work, s.works[command.work]);
      var key := Normalize(command.key, MAX_KEY).value;
      ExtendsAlike(s.byCreation);
      ExtendsAlike(s.messages);
      ExtendsAlike(s.byMessageKey);
      ExtendsOne(s.byAcceptance, AcceptanceKey(command.work, command.member.user, key), command.review);
    }
  }

  lemma OthersKeepRequests(s: State, t: State)
    requires t.byCreation == s.byCreation && t.messages == s.messages && t.byMessageKey == s.byMessageKey
    requires t.byAcceptance == s.byAcceptance && WorksExtend(s.works, t.works)
    ensures RequestsKept(s, t)
  {}

  lemma CommitKeepsRequests(s: State, command: CommitCommand, newReview: Id, now: int)
    ensures RequestsKept(s, Commit(s, command, newReview, now).0)
  {
    hide ValidateUpdate, ReviewDigest, Fresh, RequestsKept, WorksExtend;
    RequestsAlike(s);
    var t := Commit(s, command, newReview, now).0;
    if t != s {
      CommitSucceeds(s, command, newReview, now);
      var work := s.runs[command.key.run].work;
      WorksExtendOne(s.works, work, t.works[work]);
      OthersKeepRequests(s, t);
    }
  }

  lemma ClaimKeepsRequests(s: State, command: ClaimCommand, newRun: Id, newAttempt: Id)
    ensures RequestsKept(s, ClaimRun(s, command, newRun, newAttempt).0)
  {
    hide ClaimRun, Describes, RequestsKept, CurrentAttempt;
    ClaimCases(s, command, newRun, newAttempt);
    RequestsAlike(s);
    if ClaimRun(s, command, newRun, newAttempt).1.Ok? {
      OthersKeepRequests(s, ClaimRun(s, command, newRun, newAttempt).0);
    }
  }

  lemma StepKeepsRequests(ledger: Ledger, op: Op)
    ensures RequestsKept(ledger.rows, Step(ledger, op).rows)
  {
    hide CreateWork, Append, ClaimRun, Commit, AcceptReview, Renew, Finish, RequestRetry, RequestsKept, CommitsOf, WorksExtend;
    var s := ledger.rows;
    match op
    case OpCreate(create, newWork) => CreateKeepsRequests(s, create, newWork);
    case OpAppend(append, newMessage) => AppendKeepsRequests(s, append, newMessage);
    case OpClaim(claim, newRun, newAttempt) => ClaimKeepsRequests(s, claim, newRun, newAttempt);
    case OpCommit(commit, newReview, at) => CommitKeepsRequests(s, commit, newReview, at);
    case OpAccept(accept) => AcceptKeepsRequests(s, accept);
    case OpTransfer(work, owner) =>
      RequestsAlike(s);
      if work in s.works {
        WorksExtendOne(s.works, work, s.works[work].(owner := owner));
        OthersKeepRequests(s, Apply(s, op));
      }
    case _ =>
      QuietSteps(s, op);
      WorksAlike(s.works);
      OthersKeepRequests(s, Apply(s, op));
  }

  /** The tables that hold Works, inputs and request keys are as they were. */
  ghost predicate Quiet(s: State, t: State) {
    && t.byCreation == s.byCreation && t.works == s.works && t.messages == s.messages
    && t.byMessageKey == s.byMessageKey && t.byAcceptance == s.byAcceptance
  }

  lemma QuietSteps(s: State, op: Op)
    requires op.OpRenew? || op.OpFinish? || op.OpRetry? || op.OpEnvironment?
    ensures Quiet(s, Apply(s, op))
  {
    hide RequestRetry, Finish, Renew;
    match op
    case OpRenew(key, now) => RenewIsQuiet(s, key, now);
    case OpFinish(finish, outcome, finishedAt) => FinishIsQuiet(s, finish, outcome, finishedAt);
    case OpRetry(retry) => RetryIsQuiet(s, retry);
    case _ =>
  }

  lemma RenewIsQuiet(s: State, key: AttemptKey, now: int)
    ensures Quiet(s, Renew(s, key, now).0)
  {}

  lemma FinishIsQuiet(s: State, key: AttemptKey, outcome: Outcome, now: int)
    ensures Quiet(s, Finish(s, key, outcome, now).0)
  {}

  lemma RetryIsQuiet(s: State, command: RetryCommand)
    ensures Quiet(s, RequestRetry(s, command).0)
  {
    hide Normalize, Active, Retryable, Quiet;
    var t := RequestRetry(s, command).0;
    ReleaseIsQuiet(s, s);
    if t != s {
      ReleaseIsQuiet(s, t);
    }
  }

  lemma ReleaseIsQuiet(s: State, t: State)
    requires t == s.(runs := t.runs, unresolved := t.unresolved, byRetry := t.byRetry)
    ensures Quiet(s, t)
  {}

  lemma WorksAlike(works: map<Id, Work>)
    ensures WorksExtend(works, works)
  {}

  lemma {:induction false} HistoryKeepsRequests(ledger: Ledger, ops: seq<Op>)
    ensures RequestsKept(ledger.rows, History(ledger, ops).rows)
    decreases |ops|
  {
    hide Step, RequestsKept;
    if ops == [] {
      RequestsAlike(ledger.rows);
    } else {
      var init := History(ledger, ops[..|ops| - 1]);
      HistoryKeepsRequests(ledger, ops[..|ops| - 1]);
      StepKeepsRequests(init, ops[|ops| - 1]);
      RequestsKeptTransitive(ledger.rows, init.rows, Step(init, ops[|ops| - 1]).rows);
    }
  }

  // ----- Replays -----

  lemma CreateDigestInjective(creator: Member, a: Bytes, b: Bytes)
    requires |a| < Digest.WORD && |b| < Digest.WORD
    ensures CreateDigest(creator, a) == CreateDigest(creator, b) <==> a == b
  {
    var x, y := [creator.space.text, creator.user.text, a], [creator.space.text, creator.user.text, b];
    assert Digest.Representable(x) && Digest.Representable(y);
    if CreateDigest(creator, a) == CreateDigest(creator, b) {
      hide Digest.Preimage;
      Digest.PreimageInjective(x, y);
      assert x[2] == y[2];
    }
  }

  lemma InputDigestInjective(work: Id, author: Id, a: Bytes, b: Bytes)
    requires |a| < Digest.WORD && |b| < Digest.WORD
    ensures MessageDigest(work, author, a) == MessageDigest(work, author, b) <==> a == b
  {
    var x, y := [work.text, author.text, a], [work.text, author.text, b];
    assert Digest.Representable(x) && Digest.Representable(y);
    if MessageDigest(work, author, a) == MessageDigest(work, author, b) {
      hide Digest.Preimage;
      Digest.PreimageInjective(x, y);
      assert x[2] == y[2];
    }
  }

  /** The Work a creation made is on record under its request key. */
  ghost predicate CreationOnRecord(s: State, creator: Member, key: Bytes, goal: Bytes, work: Id) {
    && CreationKey(creator, key) in s.byCreation && s.byCreation[CreationKey(creator, key)] == work
    && work in s.works && s.works[work].digest == CreateDigest(creator, goal)
  }

  lemma CreationRecorded(s: State, command: CreateCommand, newWork: Id)
    requires CreateWork(s, command, newWork).1.Ok?
    ensures Normalize(command.goal, MAX_GOAL).Some? && Normalize(command.key, MAX_KEY).Some?
    ensures var (t, r) := CreateWork(s, command, newWork);
      CreationOnRecord(t, command.creator, Normalize(command.key, MAX_KEY).value, Normalize(command.goal, MAX_GOAL).value,
                       r.value)
  {
    hide Normalize, CreateDigest;
  }

  lemma RecordedCreationReplays(t: State, replay: CreateCommand, goal: Bytes, work: Id, otherWork: Id)
    requires Normalize(replay.goal, MAX_GOAL).Some? && Normalize(replay.key, MAX_KEY).Some? && Active(t, replay.creator)
    requires CreationOnRecord(t, replay.creator, Normalize(replay.key, MAX_KEY).value, goal, work)
    ensures CreateWork(t, replay, otherWork) ==
      if CreateDigest(replay.creator, Normalize(replay.goal, MAX_GOAL).value) == CreateDigest(replay.creator, goal)
      then (t, Ok(work)) else (t, Err(IdempotencyConflict))
  {
    hide Normalize, CreateDigest;
  }

  /** A creation key makes at most one Work, for ever: the same goal finds it and another goal conflicts. */
  lemma CreateReplay(ledger: Ledger, command: CreateCommand, newWork: Id, ops: seq<Op>, replay: CreateCommand,
                     otherWork: Id)
    requires CreateWork(ledger.rows, command, newWork).1.Ok? && replay.creator == command.creator
    requires Normalize(replay.key, MAX_KEY) == Normalize(command.key, MAX_KEY)
    requires Normalize(replay.goal, MAX_GOAL).Some?
    requires Active(History(Step(ledger, OpCreate(command, newWork)), ops).rows, replay.creator)
    ensures var t := History(Step(ledger, OpCreate(command, newWork)), ops).rows;
      CreateWork(t, replay, otherWork) ==
        if Normalize(replay.goal, MAX_GOAL) == Normalize(command.goal, MAX_GOAL)
        then (t, CreateWork(ledger.rows, command, newWork).1) else (t, Err(IdempotencyConflict))
  {
    hide History, Normalize, CreateWork, CreateDigest, Active, ValidText;
    var next := Step(ledger, OpCreate(command, newWork));
    CreationRecorded(ledger.rows, command, newWork);
    HistoryKeepsRequests(next, ops);
    var goal := Normalize(command.goal, MAX_GOAL).value;
    RecordedCreationReplays(History(next, ops).rows, replay, goal, CreateWork(ledger.rows, command, newWork).1.value, otherWork);
    NormalizeIdempotent(command.goal, MAX_GOAL);
    NormalizeIdempotent(replay.goal, MAX_GOAL);
    CreateDigestInjective(command.creator, goal, Normalize(replay.goal, MAX_GOAL).value);
  }

  /** The input an append made is on record under its request key. */
  ghost predicate InputOnRecord(s: State, request: MessageKey, text: Bytes, space: Id, message: Id) {
    && request.work in s.works && s.works[request.work].space == space
    && request in s.byMessageKey && s.byMessageKey[request] == message
    && message in s.messages && s.messages[message].digest == MessageDigest(request.work, request.author, text)
  }

  lemma InputRecorded(s: State, command: AppendCommand, newMessage: Id)
    requires Append(s, command, newMessage).1.Ok?
    ensures ValidMessageText(command.text) && Normalize(command.key, MAX_KEY).Some?
    ensures var (t, r) := Append(s, command, newMessage);
      InputOnRecord(t, MessageKey(command.work, command.author.user, Normalize(command.key, MAX_KEY).value), command.text,
                    command.author.space, r.value)
  {
    hide Normalize, MessageDigest, ValidMessageText;
  }

  lemma RecordedInputReplays(t: State, replay: AppendCommand, text: Bytes, message: Id, otherMessage: Id)
    requires ValidMessageText(replay.text) && Normalize(replay.key, MAX_KEY).Some? && Active(t, replay.author)
    requires InputOnRecord(t, MessageKey(replay.work, replay.author.user, Normalize(replay.key, MAX_KEY).value), text,
                           replay.author.space, message)
    ensures Append(t, replay, otherMessage) ==
      if MessageDigest(replay.work, replay.author.user, replay.text) == MessageDigest(replay.work, replay.author.user, text)
      then (t, Ok(message)) else (t, Err(IdempotencyConflict))
  {
    hide Normalize, MessageDigest, ValidMessageText;
  }

  /** A message key adds at most one input, for ever: the same text finds it and another text conflicts. */
  lemma AppendReplay(ledger: Ledger, command: AppendCommand, newMessage: Id, ops: seq<Op>, replay: AppendCommand,
                     otherMessage: Id)
    requires Append(ledger.rows, command, newMessage).1.Ok?
    requires replay.work == command.work && replay.author == command.author
    requires Normalize(replay.key, MAX_KEY) == Normalize(command.key, MAX_KEY) && ValidMessageText(replay.text)
    requires Active(History(Step(ledger, OpAppend(command, newMessage)), ops).rows, replay.author)
    ensures var t := History(Step(ledger, OpAppend(command, newMessage)), ops).rows;
      Append(t, replay, otherMessage) ==
        if replay.text == command.text then (t, Append(ledger.rows, command, newMessage).1)
        else (t, Err(IdempotencyConflict))
  {
    hide History, Normalize, Append, MessageDigest, Active, ValidText;
    var next := Step(ledger, OpAppend(command, newMessage));
    InputRecorded(ledger.rows, command, newMessage);
    HistoryKeepsRequests(next, ops);
    RecordedInputReplays(History(next, ops).rows, replay, command.text, Append(ledger.rows, command, newMessage).1.value,
                         otherMessage);
    InputDigestInjective(command.work, command.author.user, command.text, replay.text);
  }

  /** An acceptance key accepts one review, for ever: its replay is a no-op and another review conflicts. */
  lemma AcceptReplay(ledger: Ledger, command: AcceptCommand, ops: seq<Op>, replay: AcceptCommand)
    requires AcceptReview(ledger.rows, command).0 != ledger.rows
    requires replay.work == command.work && replay.member == command.member
    requires Normalize(replay.key, MAX_KEY) == Normalize(command.key, MAX_KEY)
    requires Active(History(Step(ledger, OpAccept(command)), ops).rows, replay.member)
    ensures var t := History(Step(ledger, OpAccept(command)), ops).rows;
      AcceptReview(t, replay) ==
        if replay.review == command.review then (t, Ok(())) else (t, Err(IdempotencyConflict))
  {
    hide History, Normalize, AcceptReview, AcceptanceDigest, Active, CurrentReview;
    var next := Step(ledger, OpAccept(command));
    AcceptanceRecorded(ledger.rows, command);
    HistoryKeepsRequests(next, ops);
    RecordedAcceptanceReplays(History(next, ops).rows, replay, command.review);
  }

  ghost predicate AcceptanceOnRecord(s: State, request: AcceptanceKey, space: Id, review: Id) {
    && request.work in s.works && s.works[request.work].space == space
    && request in s.byAcceptance && s.byAcceptance[request] == review
  }

  lemma AcceptanceRecorded(s: State, command: AcceptCommand)
    requires AcceptReview(s, command).0 != s
    ensures Normalize(command.key, MAX_KEY).Some?
    ensures AcceptanceOnRecord(AcceptReview(s, command).0,
      AcceptanceKey(command.work, command.member.user, Normalize(command.key, MAX_KEY).value), command.member.space,
      command.review)
  {
    hide Normalize, AcceptanceDigest, CurrentReview, Active;
  }

  lemma RecordedAcceptanceReplays(t: State, replay: AcceptCommand, review: Id)
    requires Normalize(replay.key, MAX_KEY).Some? && Active(t, replay.member)
    requires AcceptanceOnRecord(t, AcceptanceKey(replay.work, replay.member.user, Normalize(replay.key, MAX_KEY).value),
                                replay.member.space, review)
    ensures AcceptReview(t, replay) == if replay.review == review then (t, Ok(())) else (t, Err(IdempotencyConflict))
  {
    hide Normalize, AcceptanceDigest, CurrentReview, Active;
  }
}
