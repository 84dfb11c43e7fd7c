/** The Work and Run transactions as they run against the tables, with commit and rollback. */
module WorkRunStore {
  import opened Wrappers
  import opened Ids
  import opened Text
  import opened WorkRun

  class Store {
    var members: map<Member, bool>
    var machines: map<Id, Machine>
    var works: map<Id, Work>
    var byCreation: map<CreationKey, Id>
    var messages: Messages
    var byInput: Positions
    var byMessageKey: map<MessageKey, Id>
    var runs: map<Id, Run>
    var unresolved: map<Id, Id>
    var byRetry: map<RetryKey, Id>
    var attempts: map<Id, Attempt>
    var byFence: map<FenceKey, Id>
    var checks: map<Id, Check>
    var byVersion: map<VersionKey, Id>
    var byAcceptance: map<AcceptanceKey, Id>

    constructor ()
      ensures Tables() == EMPTY_STATE
    {
      members, machines, works, byCreation, messages, byInput := map[], map[], map[], map[], map[], map[];
      byMessageKey, runs, unresolved, byRetry, attempts := map[], map[], map[], map[], map[];
      byFence, checks, byVersion, byAcceptance := map[], map[], map[], map[];
    }

    /** The committed rows. */
    function Tables(): State
      reads this
    {
      State(members, machines, works, byCreation, messages, byInput, byMessageKey, runs, unresolved, byRetry, attempts,
            byFence, checks, byVersion, byAcceptance)
    }

    lemma TablesAre()
      ensures Tables() == State(members, machines, works, byCreation, messages, byInput, byMessageKey, runs, unresolved,
                                byRetry, attempts, byFence, checks, byVersion, byAcceptance)
    {}

    /** `CreateWork`'s insert, after the membership lock. */
    method CreateWork(command: CreateCommand, newWork: Id) returns (r: Result<Id, Error>)
      modifies this`works, this`byCreation
      ensures (Tables(), r) == WorkRun.CreateWork(old(Tables()), command, newWork)
    {
      hide Normalize, CreateDigest, WorkRun.Active;
      var goal := Normalize(command.goal, MAX_GOAL);
      if goal.None? {
        return Err(InvalidGoal);
      }
      var key := Normalize(command.key, MAX_KEY);
      if key.None? {
        return Err(InvalidIdempotency);
      }
      var digest := CreateDigest(command.creator, goal.value);
      if !Active(Tables(), command.creator) {
        return Err(Forbidden);
      }
      var request := CreationKey(command.creator, key.value);
      if request in byCreation {
        var existing := byCreation[request];
        if existing !in works {
          return Err(DatabaseFailure);
        }
        if works[existing].digest != digest {
          return Err(IdempotencyConflict);
        }
        return Ok(existing);
      }
      if newWork in works {
        return Err(DatabaseFailure);
      }
      works := works[newWork := Work(command.creator.space, command.creator.user, goal.value, digest, 1, 0, 0, None)];
      byCreation := byCreation[request := newWork];
      return Ok(newWork);
    }

    /** `AdvanceWorkInputHead` and `CreateWorkMessage`. */
    method InsertInput(work: Id, author: Id, text: Bytes, key: Bytes, digest: Bytes, newMessage: Id)
      returns (inserted: bool)
      requires work in works
      modifies this`works, this`messages, this`byInput, this`byMessageKey
      ensures var input := old(works[work].head) + 1;
        && inserted == (newMessage !in old(messages) && InputSlot(work, input) !in old(byInput))
        && (if inserted then
              && works == old(works)[work := old(works[work]).(head := input)]
              && messages == old(messages)[newMessage := Message(work, author, text, input, key, digest)]
              && byInput == old(byInput)[InputSlot(work, input) := newMessage]
              && byMessageKey == old(byMessageKey)[MessageKey(work, author, key) := newMessage]
            else Tables() == old(Tables()))
    {
      var inputSeq := works[work].head + 1;
      var slot := InputSlot(work, inputSeq);
      if newMessage in messages || slot in byInput {
        return false;
      }
      works := works[work := works[work].(head := inputSeq)];
      messages := messages[newMessage := Message(work, author, text, inputSeq, key, digest)];
      byInput := byInput[slot := newMessage];
      byMessageKey := byMessageKey[MessageKey(work, author, key) := newMessage];
      return true;
    }

    method AppendWorkMessage(command: AppendCommand, newMessage: Id) returns (r: Result<Id, Error>)
      modifies this`works, this`messages, this`byInput, this`byMessageKey
      ensures (Tables(), r) == Append(old(Tables()), command, newMessage)
    {
      hide Normalize, MessageDigest, ValidMessageText, WorkRun.Active;
      if !ValidMessageText(command.text) {
        return Err(InvalidMessage);
      }
      var key := Normalize(command.key, MAX_KEY);
      if key.None? {
        return Err(InvalidIdempotency);
      }
      var digest := MessageDigest(command.work, command.author.user, command.text);
      if !Active(Tables(), command.author) {
        return Err(Forbidden);
      }
      if command.work !in works || works[command.work].space != command.author.space {
        return Err(NotFound);
      }
      var request := MessageKey(command.work, command.author.user, key.value);
      if request in byMessageKey {
        var existing := byMessageKey[request];
        if existing !in messages {
          return Err(DatabaseFailure);
        }
        if messages[existing].digest != digest {
          return Err(IdempotencyConflict);
        }
        return Ok(existing);
      }
      var inserted := InsertInput(command.work, command.author.user, command.text, key.value, digest, newMessage);
      if !inserted {
        return Err(DatabaseFailure);
      }
      return Ok(newMessage);
    }

    // ----- Claims -----

    /** `ExpireRunAttempt` and `RotateRunFence`. */
    method RecoverRun(run: Id, previous: Id)
      requires run in runs && previous in attempts
      modifies this`runs, this`attempts
      ensures Tables() == Rotated(old(Tables()), run, previous)
    {
      attempts := attempts[previous := attempts[previous].(state := AttemptExpired)];
      runs := runs[run := runs[run].(fence := runs[run].fence + 1)];
    }

    /** `SelectRunInputEnd` and `CreateRun`. */
    method OpenRun(work: Id, newRun: Id)
      requires work in works
      modifies this`runs, this`unresolved
      ensures Tables() == Opened(old(Tables()), work, newRun)
    {
      hide SelectInputEnd;
      var row := works[work];
      var inputStartSeq := row.applied + 1;
      var inputEndSeq := SelectInputEnd(messages, byInput, work, inputStartSeq, row.head);
      runs := runs[newRun := Run(work, inputStartSeq, inputEndSeq, row.version, RunActive, 1, None)];
      unresolved := unresolved[work := newRun];
    }

    /** `CreateRunAttempt`, and the descriptor read back for the Machine. */
    method GrantAttempt(run: Id, command: ClaimCommand, newAttempt: Id, ghost before: State)
      returns (r: Result<Claim, Error>)
      requires run in runs
      modifies this`attempts, this`byFence
      ensures r == Grant(before, old(Tables()), run, command, newAttempt).1
      ensures r.Ok? ==> Tables() == Grant(before, old(Tables()), run, command, newAttempt).0
      ensures r.Err? ==>
        Tables() == old(Tables()) && Grant(before, old(Tables()), run, command, newAttempt).0 == before
    {
      hide Inputs;
      var row := runs[run];
      var key := FenceKey(run, row.fence);
      if newAttempt in attempts || key in byFence || row.work !in works {
        return Err(DatabaseFailure);
      }
      var work := works[row.work];
      var lease := command.leasedAt + LEASE;
      attempts := attempts[newAttempt := Attempt(run, command.machine, row.fence, AttemptActive, lease)];
      byFence := byFence[key := newAttempt];
      var understanding := if work.current.Some? then work.current.value.text else [];
      var nextStep := if work.current.Some? then work.current.value.nextStep else [];
      return Ok(Claim(run, newAttempt, row.work, row.fence, lease, work.goal, understanding, nextStep, row.base, row.last,
                      Inputs(messages, byInput, row.work, row.first, row.last)));
    }

    /** The recovery of an expired Run, whose Attempt's expiry is read a second time. */
    method ClaimExpired(run: Id, previous: Id, command: ClaimCommand, newAttempt: Id) returns (r: Result<Claim, Error>)
      requires run in runs && previous in attempts
      modifies this`runs, this`attempts, this`byFence
      ensures (Tables(), r) ==
        if old(attempts)[previous].leaseExpiresAt > command.expiredAt then (old(Tables()), Err(StaleAttempt))
        else Grant(old(Tables()), Rotated(old(Tables()), run, previous), run, command, newAttempt)
    {
      hide Grant, Rotated;
      if attempts[previous].leaseExpiresAt > command.expiredAt {
        return Err(StaleAttempt);
      }
      var savedRuns, savedAttempts := runs, attempts;
      ghost var before := Tables();
      RecoverRun(run, previous);
      RotatedKeepsRun(before, run, previous);
      r := GrantAttempt(run, command, newAttempt, before);
      if r.Err? {
        runs, attempts := savedRuns, savedAttempts;
      }
    }

    /** A fresh Run over the next range of a ready Work. */
    method ClaimFresh(work: Id, command: ClaimCommand, newRun: Id, newAttempt: Id) returns (r: Result<Claim, Error>)
      requires work in works
      modifies this`runs, this`unresolved, this`attempts, this`byFence
      ensures (Tables(), r) ==
        if newRun in old(runs) then (old(Tables()), Err(DatabaseFailure))
        else if work in old(unresolved) then (old(Tables()), Err(NoRunAvailable))
        else Grant(old(Tables()), Opened(old(Tables()), work, newRun), newRun, command, newAttempt)
    {
      hide Grant, Opened;
      var savedRuns, savedUnresolved := runs, unresolved;
      ghost var before := Tables();
      if newRun in runs {
        return Err(DatabaseFailure);
      }
      if work in unresolved {
        return Err(NoRunAvailable);
      }
      OpenRun(work, newRun);
      OpenedHasRun(before, work, newRun);
      r := GrantAttempt(newRun, command, newAttempt, before);
      if r.Err? {
        runs, unresolved := savedRuns, savedUnresolved;
      }
    }

    method ClaimRun(command: ClaimCommand, newRun: Id, newAttempt: Id) returns (r: Result<Claim, Error>)
      modifies this`runs, this`unresolved, this`attempts, this`byFence
      ensures (Tables(), r) == WorkRun.ClaimRun(old(Tables()), command, newRun, newAttempt)
    {
      hide Grant, Opened, Rotated, Expired, Ready, CurrentAttempt;
      var space := ActiveMachineSpace(Tables(), command.machine);
      if space.Err? {
        return Err(space.error);
      }
      if command.expired.Some? && Expired(Tables(), command.expired.value, space.value, command.selectedAt) {
        ExpiredHasAttempt(Tables(), command.expired.value, space.value, command.selectedAt);
        var previous := CurrentAttempt(Tables(), command.expired.value).value;
        r := ClaimExpired(command.expired.value, previous, command, newAttempt);
      } else if command.ready.Some? && Ready(Tables(), command.ready.value, space.value) {
        ReadyHasWork(Tables(), command.ready.value, space.value);
        r := ClaimFresh(command.ready.value, command, newRun, newAttempt);
      } else {
        return Err(NoRunAvailable);
      }
    }

    // ----- Attempts -----

    method RenewRunAttempt(key: AttemptKey, now: int) returns (r: Result<int, Error>)
      modifies this`attempts
      ensures (Tables(), r) == Renew(old(Tables()), key, now)
    {
      if !Authorized(Tables(), key) {
        return Err(StaleAttempt);
      }
      if attempts[key.attempt].leaseExpiresAt <= now {
        return Err(StaleAttempt);
      }
      attempts := attempts[key.attempt := attempts[key.attempt].(leaseExpiresAt := now + LEASE)];
      return Ok(now + LEASE);
    }

    /** `CommitCurrentUnderstanding` and `CreateWorkResultCheck`: the Work moves to the end of the range. */
    method MoveWork(work: Id, applied: nat, update: Understanding, newReview: Id, review: bool)
      requires work in works
      modifies this`works, this`checks, this`byVersion
      ensures var version := old(works[work].version) + 1;
        && works == old(works)[work := old(works[work]).(applied := applied, version := version, current := Some(update))]
        && checks == (if review then old(checks)[newReview := Check(work, version, ReviewDigest(update), None)] else old(checks))
        && byVersion == (if review then old(byVersion)[VersionKey(work, version) := newReview] else old(byVersion))
      ensures Tables() == old(Tables()).(works := works, checks := checks, byVersion := byVersion)
    {
      hide ReviewDigest;
      var version := works[work].version + 1;
      works := works[work := works[work].(applied := applied, version := version, current := Some(update))];
      if review {
        checks := checks[newReview := Check(work, version, ReviewDigest(update), None)];
        byVersion := byVersion[VersionKey(work, version) := newReview];
      }
    }

    /** `SucceedRunAttempt` and `SucceedRun`. */
    method Succeed(run: Id, attempt: Id)
      requires run in runs && attempt in attempts
      modifies this`runs, this`attempts, this`unresolved
      ensures runs == old(runs)[run := old(runs[run]).(state := RunSucceeded)]
      ensures attempts == old(attempts)[attempt := old(attempts[attempt]).(state := AttemptSucceeded)]
      ensures unresolved == old(unresolved) - {old(runs[run].work)}
      ensures Tables() == old(Tables()).(runs := runs, attempts := attempts, unresolved := unresolved)
    {
      attempts := attempts[attempt := attempts[attempt].(state := AttemptSucceeded)];
      unresolved := unresolved - {runs[run].work};
      runs := runs[run := runs[run].(state := RunSucceeded)];
    }

    /** The writes of a commit, once every guard has passed. */
    method WriteUnderstanding(command: CommitCommand, update: Understanding, newReview: Id, review: bool)
      requires Authorized(Tables(), command.key) && runs[command.key.run].work in works
      modifies this`works, this`runs, this`attempts, this`unresolved, this`checks, this`byVersion
      ensures Tables() == Committed(old(Tables()), command, update, newReview, review)
    {
      hide *;
      TablesAre();
      AuthorizedRows(Tables(), command.key);
      CommittedTables(Tables(), command, update, newReview, review);
      var run := runs[command.key.run];
      MoveWork(run.work, run.last, update, newReview, review);
      Succeed(command.key.run, command.key.attempt);
    }

    method CommitWorkUnderstanding(command: CommitCommand, newReview: Id, now: int) returns (r: Result<(), Error>)
      modifies this`works, this`runs, this`attempts, this`unresolved, this`checks, this`byVersion
      ensures (Tables(), r) == Commit(old(Tables()), command, newReview, now)
    {
      hide ValidateUpdate, Committed, ReviewDigest;
      var update := ValidateUpdate(command.understanding, command.nextStep);
      if update.None? {
        return Err(InvalidUpdate);
      }
      if !Authorized(Tables(), command.key) || runs[command.key.run].work !in works {
        return Err(StaleAttempt);
      }
      if attempts[command.key.attempt].leaseExpiresAt <= now {
        return Err(StaleAttempt);
      }
      var run := runs[command.key.run];
      var locked := works[run.work];
      if run.base != command.base || run.last != command.last || locked.version != run.base
         || locked.applied != run.first - 1 || locked.head < run.last {
        return Err(StaleAttempt);
      }
      var review := command.reviewRequired && run.last == locked.head;
      if review {
        if newReview in checks {
          return Err(DatabaseFailure);
        }
        if VersionKey(run.work, locked.version + 1) in byVersion {
          return Err(StaleAttempt);
        }
      }
      WriteUnderstanding(command, update.value, newReview, review);
      return Ok(());
    }

    method FinishUnresolvedAttempt(key: AttemptKey, outcome: Outcome, now: int) returns (r: Result<(), Error>)
      modifies this`attempts, this`runs
      ensures (Tables(), r) == Finish(old(Tables()), key, outcome, now)
    {
      if outcome.OutcomeOther? {
        return Err(InvalidOutcome);
      }
      if !Authorized(Tables(), key) || attempts[key.attempt].leaseExpiresAt <= now {
        return Err(StaleAttempt);
      }
      var runState := if outcome.OutcomeFailed? then RunFailed else RunUnknown;
      var attemptState := if outcome.OutcomeFailed? then AttemptFailed else AttemptUnknown;
      attempts := attempts[key.attempt := attempts[key.attempt].(state := attemptState)];
      runs := runs[key.run := runs[key.run].(state := runState)];
      return Ok(());
    }

    // ----- Retry and review -----

    method RequestWorkRetry(command: RetryCommand) returns (r: Result<(), Error>)
      modifies this`runs, this`unresolved, this`byRetry
      ensures (Tables(), r) == RequestRetry(old(Tables()), command)
    {
      hide Normalize, WorkRun.Active;
      var key := Normalize(command.key, MAX_KEY);
      if key.None? {
        return Err(InvalidIdempotency);
      }
      if !Active(Tables(), command.member) {
        return Err(Forbidden);
      }
      if command.work !in works || works[command.work].space != command.member.space {
        return Err(NotFound);
      }
      var request := RetryKey(command.work, key.value);
      if request in byRetry {
        var existing := byRetry[request];
        if existing !in runs || runs[existing].retry.None? {
          return Err(DatabaseFailure);
        }
        if runs[existing].retry.value.user != command.member.user {
          return Err(IdempotencyConflict);
        }
        return Ok(());
      }
      if command.work !in unresolved || unresolved[command.work] !in runs
         || !Retryable(runs[unresolved[command.work]]) {
        return Err(RetryNotNeeded);
      }
      var retryable := unresolved[command.work];
      runs := runs[retryable := runs[retryable].(retry := Some(Retry(command.member.user, key.value)))];
      unresolved := unresolved - {command.work};
      byRetry := byRetry[request := retryable];
      return Ok(());
    }

    method AcceptWorkReview(command: AcceptCommand) returns (r: Result<(), Error>)
      modifies this`checks, this`byAcceptance
      ensures (Tables(), r) == AcceptReview(old(Tables()), command)
    {
      hide Normalize, WorkRun.Active, CurrentReview, AcceptanceDigest;
      var key := Normalize(command.key, MAX_KEY);
      if key.None? {
        return Err(InvalidIdempotency);
      }
      var requestDigest := AcceptanceDigest(command.work, command.review);
      if !Active(Tables(), command.member) {
        return Err(Forbidden);
      }
      var request := AcceptanceKey(command.work, command.member.user, key.value);
      var visible := command.work in works && works[command.work].space == command.member.space;
      if visible && request in byAcceptance {
        if byAcceptance[request] != command.review {
          return Err(IdempotencyConflict);
        }
        return Ok(());
      }
      if !visible {
        return Err(NotFound);
      }
      if works[command.work].owner != command.member.user {
        return Err(Forbidden);
      }
      if command.review !in checks || checks[command.review].work != command.work {
        return Err(ReviewNotCurrent);
      }
      var acceptance := Acceptance(command.member.user, key.value, requestDigest);
      if checks[command.review].acceptance.Some? {
        if checks[command.review].acceptance.value == acceptance {
          return Ok(());
        }
        return Err(ReviewNotCurrent);
      }
      if !CurrentReview(works[command.work], checks[command.review]) {
        return Err(ReviewNotCurrent);
      }
      checks := checks[command.review := checks[command.review].(acceptance := Some(acceptance))];
      byAcceptance := byAcceptance[request := command.review];
      return Ok(());
    }
  }

  lemma AuthorizedRows(s: State, key: AttemptKey)
    requires Authorized(s, key)
    ensures key.run in s.runs && key.attempt in s.attempts
  {}

  /** A commit, table by table. */
  lemma CommittedTables(s: State, command: CommitCommand, update: Understanding, newReview: Id, review: bool)
    requires Authorized(s, command.key) && command.key.run in s.runs && s.runs[command.key.run].work in s.works
    requires command.key.attempt in s.attempts
    ensures var run := s.runs[command.key.run];
      var version := s.works[run.work].version + 1;
      Committed(s, command, update, newReview, review) ==
        s.(works := s.works[run.work := s.works[run.work].(applied := run.last, version := version, current := Some(update))],
           runs := s.runs[command.key.run := run.(state := RunSucceeded)],
           attempts := s.attempts[command.key.attempt := s.attempts[command.key.attempt].(state := AttemptSucceeded)],
           unresolved := s.unresolved - {run.work},
           checks := if review then s.checks[newReview := Check(run.work, version, ReviewDigest(update), None)] else s.checks,
           byVersion := if review then s.byVersion[VersionKey(run.work, version) := newReview] else s.byVersion)
  {
    hide ReviewDigest;
  }

  lemma ExpiredHasAttempt(s: State, run: Id, space: Id, now: int)
    requires Expired(s, run, space, now)
    ensures run in s.runs && CurrentAttempt(s, run).Some? && CurrentAttempt(s, run).value in s.attempts
  {}

  lemma ReadyHasWork(s: State, work: Id, space: Id)
    requires Ready(s, work, space)
    ensures work in s.works
  {}

  lemma RotatedKeepsRun(s: State, run: Id, previous: Id)
    requires run in s.runs && previous in s.attempts
    ensures run in Rotated(s, run, previous).runs
    ensures Rotated(s, run, previous) == s.(runs := Rotated(s, run, previous).runs, attempts := Rotated(s, run, previous).attempts)
  {}

  lemma OpenedHasRun(s: State, work: Id, newRun: Id)
    requires work in s.works
    ensures newRun in Opened(s, work, newRun).runs
    ensures Opened(s, work, newRun) == s.(runs := Opened(s, work, newRun).runs, unresolved := Opened(s, work, newRun).unresolved)
  {
    hide SelectInputEnd;
  }
}
