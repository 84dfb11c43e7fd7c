/** What the Run protocol answers and records, told from the rows alone. */
module WorkRunAnswers {
  import opened Wrappers
  import opened Ids
  import opened Text
  import opened WorkRun
  import opened WorkRunInvariant
  import opened WorkRunRuns
  import opened WorkRunTheorems
  import opened WorkRunOutcomes

  predicate ActiveRow(s: State, member: Member) {
    member in s.members && s.members[member]
  }

  // ----- Works and messages -----

  /** A fresh creation makes an open Work of its active creator, with the normalized goal as its only input. */
  lemma CreateIff(s: State, command: CreateCommand, newWork: Id)
    requires newWork !in s.works && Normalize(command.goal, MAX_GOAL).Some? && Normalize(command.key, MAX_KEY).Some?
    requires CreationKey(command.creator, Normalize(command.key, MAX_KEY).value) !in s.byCreation
    ensures var (t, r) := CreateWork(s, command, newWork);
      if !ActiveRow(s, command.creator) then (t, r) == (s, Err(Forbidden))
      else
        && r == Ok(newWork) && t == s.(works := t.works, byCreation := t.byCreation)
        && newWork in t.works && t.works == s.works[newWork := t.works[newWork]]
        && var work := t.works[newWork];
           && work.space == command.creator.space && work.owner == command.creator.user
           && Some(work.goal) == Normalize(command.goal, MAX_GOAL)
           && work.head == 1 && work.applied == 0 && work.version == 0 && work.current == None
  {
    hide Normalize, CreateDigest;
  }

  /**
    A fresh creation by an active member succeeds and makes them the owner of a
    Work whose only, unapplied input is the normalized goal; at any later time it
    has that goal and is in that Space.
   */
  lemma CreatedWork(ledger: Ledger, command: CreateCommand, newWork: Id, ops: seq<Op>)
    requires newWork !in ledger.rows.works
    requires Normalize(command.goal, MAX_GOAL).Some? && Normalize(command.key, MAX_KEY).Some?
    requires CreationKey(command.creator, Normalize(command.key, MAX_KEY).value) !in ledger.rows.byCreation
    ensures var (t, r) := CreateWork(ledger.rows, command, newWork);
      var later := History(Step(ledger, OpCreate(command, newWork)), ops).rows;
      && (r.Ok? <==> ActiveRow(ledger.rows, command.creator))
      && (r.Err? ==> t == ledger.rows)
      && (r.Ok? ==>
            && newWork in t.works && t.works == ledger.rows.works[newWork := t.works[newWork]]
            && t.works[newWork].owner == command.creator.user
            && t.works[newWork].head == 1 && t.works[newWork].applied == 0 && t.works[newWork].version == 0
            && newWork in later.works && later.works[newWork].space == command.creator.space
            && Some(later.works[newWork].goal) == Normalize(command.goal, MAX_GOAL))
  {
    hide Normalize, CreateWork, History, ActiveRow, CommitsOf;
    CreateIff(ledger.rows, command, newWork);
    HistoryKeepsRequests(Step(ledger, OpCreate(command, newWork)), ops);
  }

  lemma NextInputIsFree(ledger: Ledger, work: Id)
    requires Inv(ledger) && work in ledger.rows.works
    ensures InputSlot(work, ledger.rows.works[work].head + 1) !in ledger.rows.byInput
  {
    hide LedgerSound, WorksSound, RunsSound, UnresolvedSound, AttemptsSound, ChecksSound, AcceptancesSound, RetriesSound;
    var slot := InputSlot(work, ledger.rows.works[work].head + 1);
    assert slot in ledger.rows.byInput <==>
      slot.work in ledger.rows.works && 2 <= slot.input <= ledger.rows.works[slot.work].head;
  }

  /** A fresh message of an active member becomes exactly the next input of a Work in their Space. */
  lemma AppendIff(ledger: Ledger, command: AppendCommand, newMessage: Id)
    requires Reachable(ledger) && newMessage !in ledger.rows.messages
    requires ValidMessageText(command.text) && Normalize(command.key, MAX_KEY).Some?
    requires MessageKey(command.work, command.author.user, Normalize(command.key, MAX_KEY).value)
             !in ledger.rows.byMessageKey
    ensures var s := ledger.rows;
      var (t, r) := Append(s, command, newMessage);
      if !ActiveRow(s, command.author) then (t, r) == (s, Err(Forbidden))
      else if command.work !in s.works || s.works[command.work].space != command.author.space then (t, r) == (s, Err(NotFound))
      else
        && r == Ok(newMessage)
        && t.works == s.works[command.work := s.works[command.work].(head := s.works[command.work].head + 1)]
        && newMessage in t.messages && t.messages == s.messages[newMessage := t.messages[newMessage]]
        && var message := t.messages[newMessage];
           && message.work == command.work && message.input == t.works[command.work].head
           && message.author == command.author.user && message.text == command.text
           && Some(message.key) == Normalize(command.key, MAX_KEY)
  {
    hide Reachable, Inv, Normalize, MessageDigest, ValidMessageText;
    ReachableInv(ledger);
    if command.work in ledger.rows.works { NextInputIsFree(ledger, command.work); }
  }

  /** A message is admissible when something is left of it without white space and it is valid and short enough. */
  lemma MessageTextIff(text: Bytes)
    ensures ValidMessageText(text) <==> TrimSpace(text) != [] && |text| <= 61_440 && ValidUtf8(text) && 0 !in text
  {
    hide TrimSpace, ValidUtf8;
  }

  // ----- Claims -----

  /** Message `i` of a range from `first` on is the row of the Work with that input. */
  lemma {:induction false} InputsAre(works: map<Id, Work>, messages: Messages, positions: Positions, work: Id, first: nat,
                                     last: nat)
    requires InputsDense(works, messages, positions) && work in works && 1 <= first && last <= works[work].head
    ensures var from := if first < 2 then 2 else first;
      var inputs := Inputs(messages, positions, work, first, last);
      && |inputs| == (if last < from then 0 else last + 1 - from)
      && forall id :: id in messages && messages[id].work == work && from <= messages[id].input <= last ==>
           inputs[messages[id].input - from] == Input(messages[id].author, messages[id].text)
    decreases last
  {
    hide InputsDense;
    if last >= first {
      InputsAre(works, messages, positions, work, first, last - 1);
      InputIs(works, messages, positions, work, last);
    }
  }

  lemma InputIs(works: map<Id, Work>, messages: Messages, positions: Positions, work: Id, input: nat)
    requires InputsDense(works, messages, positions) && work in works && 1 <= input <= works[work].head
    ensures |InputAt(messages, positions, work, input)| == if input == 1 then 0 else 1
    ensures forall id :: id in messages && messages[id].work == work && messages[id].input == input ==>
      InputAt(messages, positions, work, input) == [Input(messages[id].author, messages[id].text)]
  {
    var slot := InputSlot(work, input);
    assert slot in positions <==> slot.work in works && 2 <= slot.input <= works[slot.work].head;
    forall id | id in messages && messages[id].work == work && messages[id].input == input
      ensures positions[slot] == id {}
  }

  /** Every input after the goal has its row. */
  lemma InputExists(works: map<Id, Work>, messages: Messages, positions: Positions, work: Id, input: nat) returns (id: Id)
    requires InputsDense(works, messages, positions) && work in works && 2 <= input <= works[work].head
    ensures id in messages && messages[id].work == work && messages[id].input == input
  {
    var slot := InputSlot(work, input);
    assert slot in positions <==> slot.work in works && 2 <= slot.input <= works[slot.work].head;
    id := positions[slot];
  }

  /**
    A claim carries its Work's goal and current understanding, and exactly the
    member messages of its range in input order, each with its author and text.
   */
  lemma ClaimReads(ledger: Ledger, command: ClaimCommand, newRun: Id, newAttempt: Id)
    requires Reachable(ledger) && ClaimRun(ledger.rows, command, newRun, newAttempt).1.Ok?
    ensures var (t, r) := ClaimRun(ledger.rows, command, newRun, newAttempt);
      var claim := r.value;
      && claim.work in t.works
      && var work := t.works[claim.work];
         var from := if work.applied + 1 < 2 then 2 else work.applied + 1;
         && claim.goal == work.goal && claim.last <= work.head && work.applied < claim.last
         && claim.understanding == (if work.current.Some? then work.current.value.text else [])
         && claim.nextStep == (if work.current.Some? then work.current.value.nextStep else [])
         && |claim.messages| == (if claim.last < from then 0 else claim.last + 1 - from)
         && (forall id :: id in t.messages && t.messages[id].work == claim.work && from <= t.messages[id].input <= claim.last ==>
               claim.messages[t.messages[id].input - from] == Input(t.messages[id].author, t.messages[id].text))
         && (forall input: nat {:trigger HasInput(t, claim.work, input)} :: from <= input <= claim.last ==>
               HasInput(t, claim.work, input))
  {
    hide Reachable, Inputs, Inv, RowInv, ClaimRun, RunSound, WorkSound, InputsDense, Recovers, Opens, HasInput;
    ReachableInv(ledger);
    var (t, r) := ClaimRun(ledger.rows, command, newRun, newAttempt);
    ClaimKeeps(ledger, command, newRun, newAttempt);
    ClaimCases(ledger.rows, command, newRun, newAttempt);
    ClaimedUnresolved(ledger.rows, t, r.value, command);
    ClaimedFrozen(ledger.(rows := t), r.value.run);
    InvParts(ledger.(rows := t));
    ClaimSound(t, r.value.run);
    RangeOf(t, r.value.run);
    var run := t.runs[r.value.run];
    InputsAre(t.works, t.messages, t.byInput, run.work, run.first, run.last);
    forall input: nat | (if run.first < 2 then 2 else run.first) <= input <= run.last ensures HasInput(t, run.work, input) {
      var id := InputExists(t.works, t.messages, t.byInput, run.work, input);
      HasThatInput(t, id);
    }
  }

  ghost predicate HasInput(s: State, work: Id, input: nat) {
    exists id :: id in s.messages && s.messages[id].work == work && s.messages[id].input == input
  }

  lemma HasThatInput(s: State, id: Id)
    requires id in s.messages
    ensures HasInput(s, s.messages[id].work, s.messages[id].input)
  {}

  lemma ClaimedUnresolved(s: State, t: State, claim: Claim, command: ClaimCommand)
    requires Describes(t, claim) && (Recovers(s, t, claim, command) || Opens(s, t, claim, command))
    ensures IsUnresolved(t.runs[claim.run])
  {
    hide Inputs, CurrentAttempt;
  }

  lemma RangeOf(s: State, run: Id)
    requires run in s.runs && RunSound(s.works, s.messages, s.byInput, s.runs[run])
    ensures 1 <= s.runs[run].first <= s.runs[run].last && s.runs[run].work in s.works
    ensures s.runs[run].last <= s.works[s.runs[run].work].head
  {
    hide Inputs, Bounded;
  }

  /** A Machine's unrevoked Space. */
  predicate InSpace(s: State, machine: Id, space: Id) {
    machine in s.machines && !s.machines[machine].revoked && s.machines[machine].space == space
  }

  /** The active newest Attempt of an active Run in this Space, its lease run out. */
  predicate LeaseOver(s: State, run: Id, attempt: Id, space: Id, now: int) {
    && run in s.runs && s.runs[run].state == RunActive
    && s.runs[run].work in s.works && s.works[s.runs[run].work].space == space
    && attempt in s.attempts && s.attempts[attempt].run == run && s.attempts[attempt].fence == s.runs[run].fence
    && s.attempts[attempt].state == AttemptActive && s.attempts[attempt].leaseExpiresAt <= now
  }

  ghost predicate RunOver(s: State, run: Id, space: Id, now: int) {
    exists attempt :: LeaseOver(s, run, attempt, space, now)
  }

  /** A Work of this Space with unapplied input, and no Run active or waiting for a retry. */
  ghost predicate InputWaits(s: State, work: Id, space: Id) {
    && work in s.works && s.works[work].space == space && s.works[work].applied < s.works[work].head
    && forall r {:trigger r in s.runs} :: r in s.runs && s.runs[r].work == work ==>
         s.runs[r].state == RunSucceeded || (s.runs[r].state != RunActive && s.runs[r].retry != None)
  }

  lemma RunOverIff(ledger: Ledger, run: Id, space: Id, now: int)
    requires Inv(ledger)
    ensures RunOver(ledger.rows, run, space, now) <==> Expired(ledger.rows, run, space, now)
  {
    hide LedgerSound, UnresolvedSound, RunsSound, WorksSound, InputsDense, ChecksSound, AcceptancesSound, RetriesSound;
    var s := ledger.rows;
    if Expired(s, run, space, now) {
      var key := FenceKey(run, s.runs[run].fence);
      assert key in s.byFence;
      assert LeaseOver(s, run, s.byFence[key], space, now);
    }
    if RunOver(s, run, space, now) {
      var attempt :| LeaseOver(s, run, attempt, space, now);
      assert AttemptSound(s.runs, s.byFence, attempt, s.attempts[attempt]);
    }
  }

  lemma InputWaitsIff(s: State, work: Id, space: Id)
    ensures InputWaits(s, work, space) <==> Ready(s, work, space) && Unblocked(s, work)
  {
    if Ready(s, work, space) && Unblocked(s, work) {
      forall r | r in s.runs && s.runs[r].work == work
        ensures s.runs[r].state == RunSucceeded || (s.runs[r].state != RunActive && s.runs[r].retry != None) {}
    }
  }

  /**
    A claim succeeds, with fresh identities, exactly for an expired Run of the
    Machine's Space, or for a Work of it whose input waits behind no other Run;
    it holds the Run for five minutes, and a refusal changes nothing.
   */
  lemma ClaimSucceeds(ledger: Ledger, command: ClaimCommand, newRun: Id, newAttempt: Id, space: Id)
    requires Reachable(ledger) && newRun !in ledger.rows.runs && newAttempt !in ledger.rows.attempts
    requires InSpace(ledger.rows, command.machine, space)
    ensures var s := ledger.rows;
      var (t, r) := ClaimRun(s, command, newRun, newAttempt);
      && (r.Ok? <==>
            if command.expired.Some? && RunOver(s, command.expired.value, space, command.selectedAt)
            then RunOver(s, command.expired.value, space, command.expiredAt)
            else command.ready.Some? && InputWaits(s, command.ready.value, space))
      && (r.Err? ==> t == s)
      && (r.Ok? ==>
            && r.value.attempt == newAttempt && newAttempt in t.attempts
            && t.attempts[newAttempt]
                 == Attempt(r.value.run, command.machine, r.value.fence, AttemptActive, command.leasedAt + 300_000_000))
  {
    hide Reachable, Inv, ClaimRun, Expired, Ready, Unblocked, RunOver, InputWaits, Describes;
    ReachableInv(ledger);
    var s := ledger.rows;
    ClaimIff(ledger, command, newRun, newAttempt);
    if command.expired.Some? {
      RunOverIff(ledger, command.expired.value, space, command.selectedAt);
      RunOverIff(ledger, command.expired.value, space, command.expiredAt);
    }
    if command.ready.Some? { InputWaitsIff(s, command.ready.value, space); }
    ClaimCases(s, command, newRun, newAttempt);
    if ClaimRun(s, command, newRun, newAttempt).1.Ok? {
      NewAttempt(s, command, newRun, newAttempt);
      AttemptOf(s, ClaimRun(s, command, newRun, newAttempt).0, ClaimRun(s, command, newRun, newAttempt).1.value, command);
    }
  }

  lemma AttemptOf(s: State, t: State, claim: Claim, command: ClaimCommand)
    requires Describes(t, claim) && (Recovers(s, t, claim, command) || Opens(s, t, claim, command))
    ensures claim.attempt in t.attempts
    ensures t.attempts[claim.attempt]
      == Attempt(claim.run, command.machine, claim.fence, AttemptActive, command.leasedAt + 300_000_000)
  {
    hide Inputs, CurrentAttempt;
  }

  lemma NewAttempt(s: State, command: ClaimCommand, newRun: Id, newAttempt: Id)
    requires ClaimRun(s, command, newRun, newAttempt).1.Ok?
    ensures ClaimRun(s, command, newRun, newAttempt).1.value.attempt == newAttempt
  {
    hide Inputs, SelectInputEnd, Rotated, Opened, CurrentAttempt, Expired, Ready;
    if command.expired.Some? && Expired(s, command.expired.value, ActiveMachineSpace(s, command.machine).value, command.selectedAt) {
      ExpiredIs(s, command.expired.value, ActiveMachineSpace(s, command.machine).value, command.selectedAt);
    } else {
      ReadyIs(s, command.ready.value, ActiveMachineSpace(s, command.machine).value);
    }
  }

  // ----- Attempts -----

  /** The newest Attempt of an active Run, by the unrevoked Machine that holds it, while its lease lasts. */
  predicate Holds(s: State, key: AttemptKey, now: int) {
    && key.machine in s.machines && !s.machines[key.machine].revoked
    && key.run in s.runs && s.runs[key.run].state == RunActive
    && key.attempt in s.attempts
    && var attempt := s.attempts[key.attempt];
       && attempt.run == key.run && attempt.machine == key.machine
       && attempt.fence == key.fence == s.runs[key.run].fence
       && attempt.state == AttemptActive && now < attempt.leaseExpiresAt
  }

  /** Exactly the holder's lease is renewed, to five minutes from now, and no other row changes. */
  lemma RenewalIff(s: State, key: AttemptKey, now: int)
    ensures var (t, r) := Renew(s, key, now);
      if !Holds(s, key, now) then (t, r) == (s, Err(StaleAttempt))
      else
        && r == Ok(now + 300_000_000)
        && t == s.(attempts := s.attempts[key.attempt := s.attempts[key.attempt].(leaseExpiresAt := now + 300_000_000)])
  {
    hide CurrentAttempt;
  }

  /**
    A valid update is committed exactly from the holder that echoes its claim. It
    leaves the normalized texts as the Work's current understanding, and its review,
    if one is opened, names the new version.
   */
  lemma UpdateIff(ledger: Ledger, command: CommitCommand, newReview: Id, now: int)
    requires Reachable(ledger) && newReview !in ledger.rows.checks
    ensures var s := ledger.rows;
      var (t, r) := Commit(s, command, newReview, now);
      var text := Normalize(command.understanding, MAX_UNDERSTANDING);
      var step := Normalize(command.nextStep, MAX_NEXT_STEP);
      && (r.Ok? <==>
            && text.Some? && step.Some? && Holds(s, command.key, now)
            && command.base == s.runs[command.key.run].base && command.last == s.runs[command.key.run].last)
      && (r.Err? ==> t == s)
      && (r.Ok? ==>
            && s.runs[command.key.run].work in t.works
            && t.works[s.runs[command.key.run].work].current == Some(Understanding(text.value, step.value))
            && (t.checks != s.checks ==>
                  && newReview in t.checks && t.checks == s.checks[newReview := t.checks[newReview]]
                  && t.checks[newReview].version == t.works[s.runs[command.key.run].work].version
                  && t.checks[newReview].digest == ReviewDigest(Understanding(text.value, step.value)))
            && t.attempts == s.attempts[command.key.attempt := s.attempts[command.key.attempt].(state := AttemptSucceeded)]
            && t.runs == s.runs[command.key.run := s.runs[command.key.run].(state := RunSucceeded)])
  {
    hide Reachable, Inv, Normalize, ReviewDigest, Commit;
    ReachableInv(ledger);
    CommitIff(ledger, command, newReview, now);
    UpdateWrites(ledger.rows, command, newReview, now);
  }

  lemma UpdateWrites(s: State, command: CommitCommand, newReview: Id, now: int)
    ensures var (t, r) := Commit(s, command, newReview, now);
      && (r.Err? ==> t == s)
      && (r.Ok? ==>
            && Authorized(s, command.key) && s.runs[command.key.run].work in t.works
            && t.works[s.runs[command.key.run].work].current == ValidateUpdate(command.understanding, command.nextStep)
            && (t.checks != s.checks ==>
                  && newReview in t.checks && t.checks == s.checks[newReview := t.checks[newReview]]
                  && t.checks[newReview].version == t.works[s.runs[command.key.run].work].version
                  && t.works[s.runs[command.key.run].work].current.Some?
                  && t.checks[newReview].digest == ReviewDigest(t.works[s.runs[command.key.run].work].current.value))
            && t.attempts == s.attempts[command.key.attempt := s.attempts[command.key.attempt].(state := AttemptSucceeded)]
            && t.runs == s.runs[command.key.run := s.runs[command.key.run].(state := RunSucceeded)])
  {
    hide ValidateUpdate, ReviewDigest, Fresh;
  }

  /** Exactly the holder may give up, as failed or as unknown; its Attempt and Run end alike and the Work stays as it is. */
  lemma GiveUpIff(s: State, key: AttemptKey, outcome: Outcome, now: int)
    ensures var (t, r) := Finish(s, key, outcome, now);
      if outcome.OutcomeOther? then (t, r) == (s, Err(InvalidOutcome))
      else if !Holds(s, key, now) then (t, r) == (s, Err(StaleAttempt))
      else
        && r == Ok(())
        && t == s.(runs := s.runs[key.run := s.runs[key.run].(state := if outcome.OutcomeFailed? then RunFailed else RunUnknown)],
                   attempts := s.attempts[key.attempt := s.attempts[key.attempt].(
                     state := if outcome.OutcomeFailed? then AttemptFailed else AttemptUnknown)])
  {
    hide CurrentAttempt;
  }

  // ----- Retry and review -----

  /** A fresh retry releases exactly the failed or unknown Run that waits, for an active member of the Work's Space. */
  lemma ReleaseIff(ledger: Ledger, command: RetryCommand)
    requires Reachable(ledger) && Normalize(command.key, MAX_KEY).Some?
    requires RetryKey(command.work, Normalize(command.key, MAX_KEY).value) !in ledger.rows.byRetry
    ensures var s := ledger.rows;
      var (t, r) := RequestRetry(s, command);
      && (r.Ok? <==>
            && ActiveRow(s, command.member)
            && command.work in s.works && s.works[command.work].space == command.member.space
            && exists run :: Waits(s, command.work, run))
      && (r.Err? ==> t == s)
      && forall run :: Waits(s, command.work, run) && r.Ok? ==>
           t.runs == s.runs[run := s.runs[run].(
             retry := Some(Retry(command.member.user, Normalize(command.key, MAX_KEY).value)))]
  {
    hide Reachable, Inv, Normalize;
    ReachableInv(ledger);
    RetryIff(ledger, command);
    forall run {:trigger Waits(ledger.rows, command.work, run)}
      ensures Waits(ledger.rows, command.work, run) <==> RetryWaits(ledger.rows, command.work, run) {}
    forall run | RetryWaits(ledger.rows, command.work, run)
      ensures command.work in ledger.rows.unresolved && ledger.rows.unresolved[command.work] == run
    {
      WaitingRun(ledger, command.work, run);
    }
    if exists run :: RetryWaits(ledger.rows, command.work, run) {
      var run :| RetryWaits(ledger.rows, command.work, run);
      assert Waits(ledger.rows, command.work, run);
    }
  }

  /** A Run that failed or lost its outcome, and that nobody has asked to retry. */
  predicate Waits(s: State, work: Id, run: Id) {
    && run in s.runs && s.runs[run].work == work && s.runs[run].retry == None
    && (s.runs[run].state == RunFailed || s.runs[run].state == RunUnknown)
  }

  /** An accepted review is found by the key it was accepted under. */
  ghost predicate AcceptancesFound(s: State) {
    forall c {:trigger c in s.checks} :: c in s.checks && s.checks[c].acceptance.Some? ==>
      AcceptanceKey(s.checks[c].work, s.checks[c].acceptance.value.user, s.checks[c].acceptance.value.key) in s.byAcceptance
  }

  lemma CommitKeepsFound(s: State, command: CommitCommand, newReview: Id, now: int)
    requires AcceptancesFound(s)
    ensures AcceptancesFound(Commit(s, command, newReview, now).0)
  {
    hide ValidateUpdate, ReviewDigest, Fresh;
  }

  lemma AcceptKeepsFound(s: State, command: AcceptCommand)
    requires AcceptancesFound(s)
    ensures AcceptancesFound(AcceptReview(s, command).0)
  {
    hide Normalize, AcceptanceDigest, CurrentReview;
  }

  lemma OthersKeepChecks(s: State, op: Op)
    requires !op.OpCommit? && !op.OpAccept?
    ensures Apply(s, op).checks == s.checks
  {
    hide CreateWork, Append, ClaimRun, Renew, Finish, RequestRetry;
    match op
    case OpCreate(create, newWork) => CreateKeepsChecks(s, create, newWork);
    case OpAppend(append, newMessage) => AppendKeepsChecks(s, append, newMessage);
    case OpClaim(claim, newRun, newAttempt) => ClaimKeepsChecks(s, claim, newRun, newAttempt);
    case OpRenew(key, now) => RenewalIff(s, key, now);
    case OpFinish(finish, outcome, finishedAt) => GiveUpIff(s, finish, outcome, finishedAt);
    case OpRetry(retry) => RetryKeepsChecks(s, retry);
    case _ =>
  }

  lemma CreateKeepsChecks(s: State, command: CreateCommand, newWork: Id)
    ensures CreateWork(s, command, newWork).0.checks == s.checks
  {
    hide Normalize, CreateDigest, Active;
  }

  lemma AppendKeepsChecks(s: State, command: AppendCommand, newMessage: Id)
    ensures Append(s, command, newMessage).0.checks == s.checks
  {
    hide Normalize, MessageDigest, ValidMessageText, Active;
  }

  lemma RetryKeepsChecks(s: State, command: RetryCommand)
    ensures RequestRetry(s, command).0.checks == s.checks
  {
    hide Normalize, Active, Retryable;
  }

  lemma ClaimKeepsChecks(s: State, command: ClaimCommand, newRun: Id, newAttempt: Id)
    ensures ClaimRun(s, command, newRun, newAttempt).0.checks == s.checks
  {
    hide ClaimRun, Describes, CurrentAttempt;
    ClaimCases(s, command, newRun, newAttempt);
  }

  lemma StepKeepsFound(ledger: Ledger, op: Op)
    requires AcceptancesFound(ledger.rows)
    ensures AcceptancesFound(Step(ledger, op).rows)
  {
    hide Apply, Commit, AcceptReview, CommitsOf, WorksExtend;
    match op
    case OpCommit(commit, newReview, at) =>
      AppliedIs(ledger.rows, op);
      CommitKeepsFound(ledger.rows, commit, newReview, at);
    case OpAccept(accept) =>
      AppliedIs(ledger.rows, op);
      AcceptKeepsFound(ledger.rows, accept);
    case _ =>
      StepKeepsRequests(ledger, op);
      OthersKeepChecks(ledger.rows, op);
  }

  lemma AppliedIs(s: State, op: Op)
    ensures op.OpCommit? ==> Apply(s, op) == Commit(s, op.commit, op.newReview, op.at).0
    ensures op.OpAccept? ==> Apply(s, op) == AcceptReview(s, op.accept).0
  {
    hide Commit, AcceptReview;
  }

  lemma {:induction false} HistoryKeepsFound(ledger: Ledger, ops: seq<Op>)
    requires AcceptancesFound(ledger.rows)
    ensures AcceptancesFound(History(ledger, ops).rows)
    decreases |ops|
  {
    hide Step, AcceptancesFound;
    if ops != [] {
      HistoryKeepsFound(ledger, ops[..|ops| - 1]);
      StepKeepsFound(History(ledger, ops[..|ops| - 1]), ops[|ops| - 1]);
    }
  }

  lemma ReachableFound(ledger: Ledger)
    requires Reachable(ledger)
    ensures AcceptancesFound(ledger.rows)
  {
    hide History;
    var ops :| ledger == History(EMPTY, ops);
    HistoryKeepsFound(EMPTY, ops);
  }

  /** An acceptance is recorded with who made it and under which key, exactly for the owner of a current open review. */
  lemma AcceptanceRecords(ledger: Ledger, command: AcceptCommand)
    requires Reachable(ledger) && Normalize(command.key, MAX_KEY).Some?
    requires AcceptanceKey(command.work, command.member.user, Normalize(command.key, MAX_KEY).value)
             !in ledger.rows.byAcceptance
    ensures var s := ledger.rows;
      var (t, r) := AcceptReview(s, command);
      && (t != s <==>
            && ActiveRow(s, command.member)
            && command.work in s.works && s.works[command.work].space == command.member.space
            && s.works[command.work].owner == command.member.user
            && command.review in s.checks && s.checks[command.review].work == command.work
            && s.checks[command.review].acceptance == None
            && s.checks[command.review].version == s.works[command.work].version
            && s.works[command.work].applied == s.works[command.work].head)
      && (t != s ==>
            && r == Ok(()) && command.review in s.checks
            && t == s.(checks := t.checks, byAcceptance := t.byAcceptance)
            && t.checks == s.checks[command.review := s.checks[command.review].(
                 acceptance := Some(Acceptance(command.member.user, Normalize(command.key, MAX_KEY).value,
                                               AcceptanceDigest(command.work, command.review))))])
      && (t == s ==> r.Err? && (r == Err(Forbidden) || r == Err(NotFound) || r == Err(ReviewNotCurrent)))
  {
    hide Reachable, Normalize, CurrentReview, AcceptanceDigest;
    ReachableFound(ledger);
    AcceptIff(ledger, command);
  }
}
