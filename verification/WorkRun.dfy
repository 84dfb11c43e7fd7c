/**
  Works and their Runs: member input, fenced Attempts over input ranges, commits
  of a new understanding, explicit retry and result review, as transactions over
  the rows. A transaction that fails leaves every row as it was.
 */
module WorkRun {
  import opened Wrappers
  import opened Ids
  import opened Text
  import Digest

  datatype Machine = Machine(space: Id, revoked: bool)

  datatype Understanding = Understanding(text: Bytes, nextStep: Bytes)

  /** Input 1 is the goal; members' messages are inputs 2 to `head`. Every Work is open. */
  datatype Work = Work(
    space: Id,
    owner: Id,
    goal: Bytes,
    digest: Bytes,
    head: nat,
    applied: nat,
    version: nat,
    current: Option<Understanding>)

  datatype CreationKey = CreationKey(creator: Member, key: Bytes)

  datatype Message = Message(work: Id, author: Id, text: Bytes, input: nat, key: Bytes, digest: Bytes)

  datatype InputSlot = InputSlot(work: Id, input: nat)

  datatype MessageKey = MessageKey(work: Id, author: Id, key: Bytes)

  datatype RunState = RunActive | RunSucceeded | RunFailed | RunUnknown

  datatype Retry = Retry(user: Id, key: Bytes)

  datatype Run = Run(
    work: Id,
    first: nat,
    last: nat,
    base: nat,
    state: RunState,
    fence: nat,
    retry: Option<Retry>)

  datatype RetryKey = RetryKey(work: Id, key: Bytes)

  datatype AttemptState = AttemptActive | AttemptSucceeded | AttemptFailed | AttemptUnknown | AttemptExpired

  datatype Attempt = Attempt(run: Id, machine: Id, fence: nat, state: AttemptState, leaseExpiresAt: int)

  datatype FenceKey = FenceKey(run: Id, fence: nat)

  datatype Acceptance = Acceptance(user: Id, key: Bytes, digest: Bytes)

  datatype Check = Check(work: Id, version: nat, digest: Bytes, acceptance: Option<Acceptance>)

  datatype VersionKey = VersionKey(work: Id, version: nat)

  datatype AcceptanceKey = AcceptanceKey(work: Id, user: Id, key: Bytes)

  /** The rows and their unique indexes; `unresolved` is `runs_unresolved_work_idx`. */
  datatype State = State(
    members: map<Member, bool>,
    machines: map<Id, Machine>,
    works: map<Id, Work>,
    byCreation: map<CreationKey, Id>,
    messages: Messages,
    byInput: Positions,
    byMessageKey: map<MessageKey, Id>,
    runs: map<Id, Run>,
    unresolved: map<Id, Id>,
    byRetry: map<RetryKey, Id>,
    attempts: map<Id, Attempt>,
    byFence: map<FenceKey, Id>,
    checks: map<Id, Check>,
    byVersion: map<VersionKey, Id>,
    byAcceptance: map<AcceptanceKey, Id>)

  datatype Error =
    | InvalidGoal
    | InvalidMessage
    | InvalidIdempotency
    | InvalidUpdate
    | InvalidOutcome
    | Forbidden
    | NotFound
    | IdempotencyConflict
    | MachineNotFound
    | MachineRevoked
    | NoRunAvailable
    | StaleAttempt
    | RetryNotNeeded
    | ReviewNotCurrent
    | DatabaseFailure

  /** Five minutes on the database clock, in microseconds. */
  const LEASE := 5 * 60 * 1_000_000
  const MAX_INPUT_MESSAGES := 32
  const MAX_INPUT_TEXT := 256 * 1024

  predicate Active(s: State, member: Member) {
    member in s.members && s.members[member]
  }

  // ----- Works and messages -----

  datatype CreateCommand = CreateCommand(creator: Member, goal: Bytes, key: Bytes)

  function CreateDigest(creator: Member, goal: Bytes): Bytes {
    Digest.Preimage([creator.space.text, creator.user.text, goal])
  }

  /** `CreateWork`: the creator owns the new Work; a repeated key finds the first one. */
  function CreateWork(s: State, command: CreateCommand, newWork: Id): (State, Result<Id, Error>) {
    match Normalize(command.goal, MAX_GOAL)
    case None => (s, Err(InvalidGoal))
    case Some(goal) =>
      match Normalize(command.key, MAX_KEY)
      case None => (s, Err(InvalidIdempotency))
      case Some(key) =>
        var request := CreationKey(command.creator, key);
        if !Active(s, command.creator) then (s, Err(Forbidden))
        else if request in s.byCreation then
          if s.byCreation[request] !in s.works then (s, Err(DatabaseFailure))
          else if s.works[s.byCreation[request]].digest != CreateDigest(command.creator, goal)
          then (s, Err(IdempotencyConflict))
          else (s, Ok(s.byCreation[request]))
        else if newWork in s.works then (s, Err(DatabaseFailure))
        else
          (s.(works := s.works[newWork :=
                Work(command.creator.space, command.creator.user, goal, CreateDigest(command.creator, goal), 1, 0, 0, None)],
              byCreation := s.byCreation[request := newWork]),
           Ok(newWork))
  }

  datatype AppendCommand = AppendCommand(work: Id, author: Member, text: Bytes, key: Bytes)

  predicate ValidMessageText(text: Bytes) {
    TrimSpace(text) != [] && |text| <= MAX_WORK_MESSAGE && ValidText(text)
  }

  function MessageDigest(work: Id, author: Id, text: Bytes): Bytes {
    Digest.Preimage([work.text, author.text, text])
  }

  /** `AppendWorkMessage`: one more input of the Work, in the order of the head. */
  function Append(s: State, command: AppendCommand, newMessage: Id): (State, Result<Id, Error>) {
    if !ValidMessageText(command.text) then (s, Err(InvalidMessage))
    else
      match Normalize(command.key, MAX_KEY)
      case None => (s, Err(InvalidIdempotency))
      case Some(key) =>
        var request := MessageKey(command.work, command.author.user, key);
        var digest := MessageDigest(command.work, command.author.user, command.text);
        if !Active(s, command.author) then (s, Err(Forbidden))
        else if command.work !in s.works || s.works[command.work].space != command.author.space then (s, Err(NotFound))
        else if request in s.byMessageKey then
          if s.byMessageKey[request] !in s.messages then (s, Err(DatabaseFailure))
          else if s.messages[s.byMessageKey[request]].digest != digest then (s, Err(IdempotencyConflict))
          else (s, Ok(s.byMessageKey[request]))
        else
          var input := s.works[command.work].head + 1;
          var slot := InputSlot(command.work, input);
          if newMessage in s.messages || slot in s.byInput then (s, Err(DatabaseFailure))
          else
            (s.(works := s.works[command.work := s.works[command.work].(head := input)],
                messages := s.messages[newMessage :=
                  Message(command.work, command.author.user, command.text, input, key, digest)],
                byInput := s.byInput[slot := newMessage],
                byMessageKey := s.byMessageKey[request := newMessage]),
             Ok(newMessage))
  }

  // ----- Input ranges -----

  datatype Input = Input(author: Id, text: Bytes)

  /** The rows of `work_messages` with their position index. */
  type Messages = map<Id, Message>

  type Positions = map<InputSlot, Id>

  function InputAt(messages: Messages, positions: Positions, work: Id, input: nat): seq<Input> {
    if InputSlot(work, input) in positions && positions[InputSlot(work, input)] in messages
    then
      var message := messages[positions[InputSlot(work, input)]];
      [Input(message.author, message.text)]
    else []
  }

  /** `ListRunInputMessages`: the messages of a range, in input order. */
  function Inputs(messages: Messages, positions: Positions, work: Id, first: nat, last: nat): seq<Input>
    decreases last
  {
    if last < first || last == 0 then []
    else Inputs(messages, positions, work, first, last - 1) + InputAt(messages, positions, work, last)
  }

  function TextBytes(inputs: seq<Input>): nat {
    if inputs == [] then 0 else TextBytes(inputs[..|inputs| - 1]) + |inputs[|inputs| - 1].text|
  }

  /** Both limits on the messages of one Run. */
  predicate Bounded(inputs: seq<Input>) {
    |inputs| <= MAX_INPUT_MESSAGES && TextBytes(inputs) <= MAX_INPUT_TEXT
  }

  /**
    `SelectRunInputEnd`: the running total over the first 32 messages of the
    range; `end` is the last one within the limit so far.
   */
  function ScanInputs(messages: Messages, positions: Positions, work: Id, first: nat, next: nat, head: nat, end: nat): nat
    decreases head + 1 - next
  {
    if next > head then end
    else if InputAt(messages, positions, work, next) == []
    then ScanInputs(messages, positions, work, first, next + 1, head, end)
    else if !Bounded(Inputs(messages, positions, work, first, next)) then end
    else ScanInputs(messages, positions, work, first, next + 1, head, next)
  }

  function SelectInputEnd(messages: Messages, positions: Positions, work: Id, first: nat, head: nat): nat {
    ScanInputs(messages, positions, work, first, first, head, first)
  }

  // ----- Claims -----

  /** `expired` and `ready` are the rows the two ordered, lock-skipping selections returned. */
  datatype ClaimCommand = ClaimCommand(
    machine: Id,
    expired: Option<Id>,
    ready: Option<Id>,
    selectedAt: int,
    expiredAt: int,
    leasedAt: int)

  datatype Claim = Claim(
    run: Id,
    attempt: Id,
    work: Id,
    fence: nat,
    leaseExpiresAt: int,
    goal: Bytes,
    understanding: Bytes,
    nextStep: Bytes,
    base: nat,
    last: nat,
    messages: seq<Input>)

  /** The Attempt of a Run under its current fence. */
  function CurrentAttempt(s: State, run: Id): Option<Id>
    requires run in s.runs
  {
    var key := FenceKey(run, s.runs[run].fence);
    if key in s.byFence && s.byFence[key] in s.attempts then Some(s.byFence[key]) else None
  }

  /** `LockExpiredRunForClaim`. */
  predicate Expired(s: State, run: Id, space: Id, now: int) {
    && run in s.runs && s.runs[run].state.RunActive?
    && s.runs[run].work in s.works && s.works[s.runs[run].work].space == space
    && CurrentAttempt(s, run).Some?
    && s.attempts[CurrentAttempt(s, run).value].state.AttemptActive?
    && s.attempts[CurrentAttempt(s, run).value].leaseExpiresAt <= now
  }

  /** `LockWorkForRunClaim`, up to the uniqueness of unresolved Runs. */
  predicate Ready(s: State, work: Id, space: Id) {
    work in s.works && s.works[work].space == space && s.works[work].applied < s.works[work].head
  }

  function ActiveMachineSpace(s: State, machine: Id): Result<Id, Error> {
    if machine !in s.machines then Err(MachineNotFound)
    else if s.machines[machine].revoked then Err(MachineRevoked)
    else Ok(s.machines[machine].space)
  }

  /** `ClaimRun`: recovers the oldest expired Run, or opens one over the next input range. */
  function ClaimRun(s: State, command: ClaimCommand, newRun: Id, newAttempt: Id): (State, Result<Claim, Error>) {
    match ActiveMachineSpace(s, command.machine)
    case Err(error) => (s, Err(error))
    case Ok(space) =>
      if command.expired.Some? && Expired(s, command.expired.value, space, command.selectedAt) then
        var run := command.expired.value;
        var previous := CurrentAttempt(s, run).value;
        if s.attempts[previous].leaseExpiresAt > command.expiredAt then (s, Err(StaleAttempt))
        else Grant(s, Rotated(s, run, previous), run, command, newAttempt)
      else if command.ready.Some? && Ready(s, command.ready.value, space) then
        var work := command.ready.value;
        if newRun in s.runs then (s, Err(DatabaseFailure))
        else if work in s.unresolved then (s, Err(NoRunAvailable))
        else Grant(s, Opened(s, work, newRun), newRun, command, newAttempt)
      else (s, Err(NoRunAvailable))
  }

  /** The old Attempt expires and the Run's fence moves on. */
  function Rotated(s: State, run: Id, previous: Id): State
    requires run in s.runs && previous in s.attempts
  {
    s.(attempts := s.attempts[previous := s.attempts[previous].(state := AttemptExpired)],
       runs := s.runs[run := s.runs[run].(fence := s.runs[run].fence + 1)])
  }

  /** A fresh Run starts after the applied inputs, on the current understanding. */
  function Opened(s: State, work: Id, newRun: Id): State
    requires work in s.works
  {
    var row := s.works[work];
    var first := row.applied + 1;
    s.(runs := s.runs[newRun :=
         Run(work, first, SelectInputEnd(s.messages, s.byInput, work, first, row.head), row.version, RunActive, 1, None)],
       unresolved := s.unresolved[work := newRun])
  }

  /** The Attempt under the Run's current fence, with the complete descriptor it is granted. */
  function Grant(s: State, t: State, run: Id, command: ClaimCommand, newAttempt: Id): (State, Result<Claim, Error>)
    requires run in t.runs
  {
    var row := t.runs[run];
    var key := FenceKey(run, row.fence);
    if newAttempt in t.attempts || key in t.byFence || row.work !in t.works then (s, Err(DatabaseFailure))
    else
      var work := t.works[row.work];
      var lease := command.leasedAt + LEASE;
      (t.(attempts := t.attempts[newAttempt := Attempt(run, command.machine, row.fence, AttemptActive, lease)],
          byFence := t.byFence[key := newAttempt]),
       Ok(Claim(run, newAttempt, row.work, row.fence, lease, work.goal,
                if work.current.Some? then work.current.value.text else [],
                if work.current.Some? then work.current.value.nextStep else [],
                row.base, row.last, Inputs(t.messages, t.byInput, row.work, row.first, row.last))))
  }

  // ----- Attempts -----

  datatype AttemptKey = AttemptKey(machine: Id, run: Id, attempt: Id, fence: int)

  /** The joins of `LockAttemptForRenew`, `LockAttemptForCommit` and `LockAttemptForFinish`. */
  predicate Authorized(s: State, key: AttemptKey) {
    && key.run in s.runs && key.attempt in s.attempts
    && var attempt := s.attempts[key.attempt];
       && attempt.run == key.run && attempt.machine == key.machine && attempt.fence == key.fence
       && s.runs[key.run].fence == attempt.fence
       && s.runs[key.run].state.RunActive? && attempt.state.AttemptActive?
       && key.machine in s.machines && !s.machines[key.machine].revoked
  }

  function Renew(s: State, key: AttemptKey, now: int): (State, Result<int, Error>) {
    if !Authorized(s, key) || s.attempts[key.attempt].leaseExpiresAt <= now then (s, Err(StaleAttempt))
    else
      (s.(attempts := s.attempts[key.attempt := s.attempts[key.attempt].(leaseExpiresAt := now + LEASE)]),
       Ok(now + LEASE))
  }

  datatype CommitCommand = CommitCommand(
    key: AttemptKey,
    base: int,
    last: int,
    understanding: Bytes,
    nextStep: Bytes,
    reviewRequired: bool)

  function ValidateUpdate(understanding: Bytes, nextStep: Bytes): Option<Understanding> {
    match Normalize(understanding, MAX_UNDERSTANDING)
    case None => None
    case Some(text) =>
      match Normalize(nextStep, MAX_NEXT_STEP)
      case None => None
      case Some(step) => Some(Understanding(text, step))
  }

  function ReviewDigest(understanding: Understanding): Bytes {
    Digest.Preimage([understanding.text, understanding.nextStep])
  }

  /** The staleness guards of a commit, beyond the Attempt's own authority. */
  predicate Fresh(run: Run, work: Work, command: CommitCommand) {
    && run.base == command.base && run.last == command.last
    && work.version == run.base && work.applied == run.first - 1 && run.last <= work.head
  }

  /** `CommitWorkUnderstanding`. */
  function Commit(s: State, command: CommitCommand, newReview: Id, now: int): (State, Result<(), Error>) {
    match ValidateUpdate(command.understanding, command.nextStep)
    case None => (s, Err(InvalidUpdate))
    case Some(update) =>
      if !Authorized(s, command.key) || s.runs[command.key.run].work !in s.works then (s, Err(StaleAttempt))
      else if s.attempts[command.key.attempt].leaseExpiresAt <= now then (s, Err(StaleAttempt))
      else
        var run := s.runs[command.key.run];
        var work := s.works[run.work];
        if !Fresh(run, work, command) then (s, Err(StaleAttempt))
        else
          var version := VersionKey(run.work, work.version + 1);
          var review := command.reviewRequired && run.last == work.head;
          if review && newReview in s.checks then (s, Err(DatabaseFailure))
          else if review && version in s.byVersion then (s, Err(StaleAttempt))
          else (Committed(s, command, update, newReview, review), Ok(()))
  }

  function Committed(s: State, command: CommitCommand, update: Understanding, newReview: Id, review: bool): State
    requires Authorized(s, command.key) && s.runs[command.key.run].work in s.works
  {
    var run := s.runs[command.key.run];
    var work := s.works[run.work];
    var next := work.version + 1;
    s.(works := s.works[run.work := work.(applied := run.last, version := next, current := Some(update))],
       runs := s.runs[command.key.run := run.(state := RunSucceeded)],
       unresolved := s.unresolved - {run.work},
       attempts := s.attempts[command.key.attempt := s.attempts[command.key.attempt].(state := AttemptSucceeded)],
       checks := if review then s.checks[newReview := Check(run.work, next, ReviewDigest(update), None)] else s.checks,
       byVersion := if review then s.byVersion[VersionKey(run.work, next) := newReview] else s.byVersion)
  }

  datatype Outcome = OutcomeFailed | OutcomeUnknown | OutcomeOther

  /** `FinishUnresolvedAttempt`: the Run stays unresolved until a member asks for a retry. */
  function Finish(s: State, key: AttemptKey, outcome: Outcome, now: int): (State, Result<(), Error>) {
    if outcome.OutcomeOther? then (s, Err(InvalidOutcome))
    else if !Authorized(s, key) || s.attempts[key.attempt].leaseExpiresAt <= now then (s, Err(StaleAttempt))
    else
      var runState := if outcome.OutcomeFailed? then RunFailed else RunUnknown;
      var attemptState := if outcome.OutcomeFailed? then AttemptFailed else AttemptUnknown;
      (s.(attempts := s.attempts[key.attempt := s.attempts[key.attempt].(state := attemptState)],
          runs := s.runs[key.run := s.runs[key.run].(state := runState)]),
       Ok(()))
  }

  // ----- Retry and review -----

  datatype RetryCommand = RetryCommand(work: Id, member: Member, key: Bytes)

  predicate Retryable(run: Run) {
    (run.state.RunFailed? || run.state.RunUnknown?) && run.retry.None?
  }

  /** `RequestWorkRetry`: one key releases at most one failed or unknown Run. */
  function RequestRetry(s: State, command: RetryCommand): (State, Result<(), Error>) {
    match Normalize(command.key, MAX_KEY)
    case None => (s, Err(InvalidIdempotency))
    case Some(key) =>
      if !Active(s, command.member) then (s, Err(Forbidden))
      else if command.work !in s.works || s.works[command.work].space != command.member.space then (s, Err(NotFound))
      else
        var request := RetryKey(command.work, key);
        if request in s.byRetry then
          var run := s.byRetry[request];
          if run !in s.runs || s.runs[run].retry.None? then (s, Err(DatabaseFailure))
          else if s.runs[run].retry.value.user != command.member.user then (s, Err(IdempotencyConflict))
          else (s, Ok(()))
        else if command.work !in s.unresolved || s.unresolved[command.work] !in s.runs
                || !Retryable(s.runs[s.unresolved[command.work]])
        then (s, Err(RetryNotNeeded))
        else
          var run := s.unresolved[command.work];
          (s.(runs := s.runs[run := s.runs[run].(retry := Some(Retry(command.member.user, key)))],
              unresolved := s.unresolved - {command.work},
              byRetry := s.byRetry[request := run]),
           Ok(()))
  }

  datatype AcceptCommand = AcceptCommand(work: Id, member: Member, review: Id, key: Bytes)

  function AcceptanceDigest(work: Id, review: Id): Bytes {
    Digest.Preimage([work.text, review.text])
  }

  /** `AcceptWorkReview`: the owner accepts the review of the current understanding, once. */
  function AcceptReview(s: State, command: AcceptCommand): (State, Result<(), Error>) {
    match Normalize(command.key, MAX_KEY)
    case None => (s, Err(InvalidIdempotency))
    case Some(key) =>
      var request := AcceptanceKey(command.work, command.member.user, key);
      if !Active(s, command.member) then (s, Err(Forbidden))
      else if request in s.byAcceptance && command.work in s.works
              && s.works[command.work].space == command.member.space then
        if s.byAcceptance[request] != command.review then (s, Err(IdempotencyConflict)) else (s, Ok(()))
      else if command.work !in s.works || s.works[command.work].space != command.member.space then (s, Err(NotFound))
      else if s.works[command.work].owner != command.member.user then (s, Err(Forbidden))
      else if command.review !in s.checks || s.checks[command.review].work != command.work
      then (s, Err(ReviewNotCurrent))
      else if s.checks[command.review].acceptance.Some? then
        if s.checks[command.review].acceptance.value
           == Acceptance(command.member.user, key, AcceptanceDigest(command.work, command.review))
        then (s, Ok(())) else (s, Err(ReviewNotCurrent))
      else if !CurrentReview(s.works[command.work], s.checks[command.review]) then (s, Err(ReviewNotCurrent))
      else
        var acceptance := Acceptance(command.member.user, key, AcceptanceDigest(command.work, command.review));
        (s.(checks := s.checks[command.review := s.checks[command.review].(acceptance := Some(acceptance))],
            byAcceptance := s.byAcceptance[request := command.review]),
         Ok(()))
  }

  /** The currency guards of an acceptance; without an understanding both texts read as empty. */
  predicate CurrentReview(work: Work, check: Check) {
    && check.version == work.version
    && work.applied == work.head
    && check.digest == ReviewDigest(if work.current.Some? then work.current.value else Understanding([], []))
  }

  // ----- Runs of the protocol -----

  datatype Op =
    | OpCreate(create: CreateCommand, newWork: Id)
    | OpAppend(append: AppendCommand, newMessage: Id)
    | OpClaim(claim: ClaimCommand, newRun: Id, newAttempt: Id)
    | OpRenew(key: AttemptKey, now: int)
    | OpCommit(commit: CommitCommand, newReview: Id, at: int)
    | OpFinish(finish: AttemptKey, outcome: Outcome, finishedAt: int)
    | OpRetry(retry: RetryCommand)
    | OpAccept(accept: AcceptCommand)
    | OpTransfer(work: Id, owner: Id)
    | OpEnvironment(members: map<Member, bool>, machines: map<Id, Machine>)

  function Apply(s: State, op: Op): State {
    match op
    case OpCreate(create, newWork) => CreateWork(s, create, newWork).0
    case OpAppend(append, newMessage) => Append(s, append, newMessage).0
    case OpClaim(claim, newRun, newAttempt) => ClaimRun(s, claim, newRun, newAttempt).0
    case OpRenew(key, now) => Renew(s, key, now).0
    case OpCommit(commit, newReview, at) => Commit(s, commit, newReview, at).0
    case OpFinish(finish, outcome, finishedAt) => Finish(s, finish, outcome, finishedAt).0
    case OpRetry(retry) => RequestRetry(s, retry).0
    case OpAccept(accept) => AcceptReview(s, accept).0
    case OpTransfer(work, owner) =>
      if work in s.works then s.(works := s.works[work := s.works[work].(owner := owner)]) else s
    case OpEnvironment(members, machines) => s.(members := members, machines := machines)
  }

  /** The rows, and the Runs that committed to each Work, oldest first. No transaction reads the latter. */
  datatype Ledger = Ledger(rows: State, commits: map<Id, seq<Id>>)

  function CommitsOf(ledger: Ledger, work: Id): seq<Id> {
    if work in ledger.commits then ledger.commits[work] else []
  }

  function Step(ledger: Ledger, op: Op): Ledger {
    var rows := Apply(ledger.rows, op);
    if op.OpCommit? && Commit(ledger.rows, op.commit, op.newReview, op.at).1.Ok? then
      CommitSucceeds(ledger.rows, op.commit, op.newReview, op.at);
      var work := ledger.rows.runs[op.commit.key.run].work;
      Ledger(rows, ledger.commits[work := CommitsOf(ledger, work) + [op.commit.key.run]])
    else ledger.(rows := rows)
  }

  lemma CommitSucceeds(s: State, command: CommitCommand, newReview: Id, now: int)
    requires Commit(s, command, newReview, now).1.Ok?
    ensures Authorized(s, command.key) && s.runs[command.key.run].work in s.works
  {
    hide ValidateUpdate, Fresh;
  }

  function History(ledger: Ledger, ops: seq<Op>): Ledger
    decreases |ops|
  {
    if ops == [] then ledger else Step(History(ledger, ops[..|ops| - 1]), ops[|ops| - 1])
  }

  const EMPTY_STATE := State(map[], map[], map[], map[], map[], map[], map[], map[], map[], map[], map[], map[], map[],
                             map[], map[])

  const EMPTY := Ledger(EMPTY_STATE, map[])
}
