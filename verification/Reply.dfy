/**
  The private reply protocol: member messages, fenced reply claims and their
  commits, as transactions over the rows of the store. A transaction that fails,
  for whatever reason, leaves every row as it was.
 */
module Reply {
  import opened Wrappers
  import opened Ids
  import opened Text
  import opened Context
  import Digest

  datatype Machine = Machine(space: Id, revoked: bool)

  datatype Conversation = Conversation(owner: Member, head: nat)

  datatype Slot = Slot(conversation: Id, position: nat)

  datatype Request = Request(conversation: Id, key: Bytes)

  datatype Message = Message(
    slot: Slot,
    content: ContextMessage,
    request: Option<Bytes>,
    digest: Bytes,
    replyTo: Option<Id>)

  datatype Claim = Claim(
    conversation: Id,
    machine: Option<Id>,
    fence: nat,
    leaseExpiresAt: int,
    contextStart: Option<nat>,
    contextEnd: Option<nat>,
    outputDigest: Bytes,
    committedReply: Option<Id>,
    createdWork: Option<Id>)

  datatype Work = Work(space: Id, owner: Id, goal: Bytes)

  /**
    The rows the protocol reads and writes. `byOwner`, `bySlot` and `byRequest`
    are the unique indexes on conversations and messages; `works` holds the Works
    that replies delegate. `members` says which memberships are active.
   */
  datatype State = State(
    machines: map<Id, Machine>,
    members: map<Member, bool>,
    conversations: map<Id, Conversation>,
    byOwner: map<Member, Id>,
    messages: map<Id, Message>,
    bySlot: map<Slot, Id>,
    byRequest: map<Request, Id>,
    claims: map<Id, Claim>,
    works: map<Id, Work>)

  datatype Error =
    | Forbidden
    | InvalidText
    | InvalidIdempotency
    | IdempotencyConflict
    | ReplyPending
    | MachineNotFound
    | MachineRevoked
    | NoReplyAvailable
    | ContextUnusable
    | StaleReplyClaim
    | InvalidGoal
    | ReplyConflict
    | DatabaseFailure

  datatype SendCommand = SendCommand(member: Member, text: Bytes, key: Bytes)

  datatype Sent = Sent(id: Id, message: Message)

  /** `choice` is the row that the ordered, lock-skipping selection returned, if any. */
  datatype ClaimCommand = ClaimCommand(machine: Id, choice: Option<Id>, selectedAt: int, assignedAt: int)

  datatype Grant = Grant(source: Id, fence: nat, leaseExpiresAt: int, messages: seq<ContextMessage>)

  datatype RenewCommand = RenewCommand(machine: Id, source: Id, fence: int, lockedAt: int, extendedAt: int)

  datatype Candidate = Candidate(reply: Bytes, goal: Option<Bytes>)

  datatype CommitCommand = CommitCommand(
    machine: Id,
    source: Id,
    fence: int,
    candidate: Candidate,
    checkedAt: int,
    completedAt: int)

  datatype Committed = Committed(reply: Id, work: Option<Id>)

  /** Five minutes on the database clock, in microseconds. */
  const LEASE := 5 * 60 * 1_000_000

  // ----- Candidates and digests -----

  const DELEGATION_NULL: Bytes := [100, 101, 108, 101, 103, 97, 116, 105, 111, 110, 58, 110, 117, 108, 108]
  const DELEGATION_GOAL: Bytes := [100, 101, 108, 101, 103, 97, 116, 105, 111, 110, 58, 103, 111, 97, 108]

  function CandidateFields(source: Id, candidate: Candidate): seq<Bytes> {
    match candidate.goal
    case None => [source.text, candidate.reply, DELEGATION_NULL]
    case Some(goal) => [source.text, candidate.reply, DELEGATION_GOAL, goal]
  }

  function OutputDigest(source: Id, candidate: Candidate): Bytes {
    Digest.Preimage(CandidateFields(source, candidate))
  }

  function MessageDigest(member: Member, text: Bytes): Bytes {
    Digest.Preimage([member.space.text, member.user.text, text])
  }

  function NormalizeCandidate(candidate: Candidate): (r: Result<Candidate, Error>)
    ensures r.Ok? ==> Admitted(r.value.reply, MAX_MESSAGE_TEXT)
    ensures r.Ok? ==> r.value.goal.Some? == candidate.goal.Some?
    ensures r.Ok? && r.value.goal.Some? ==> Admitted(r.value.goal.value, MAX_GOAL)
  {
    match Normalize(candidate.reply, MAX_MESSAGE_TEXT)
    case None => Err(InvalidText)
    case Some(reply) =>
      match candidate.goal
      case None => Ok(Candidate(reply, None))
      case Some(goal) =>
        match Normalize(goal, MAX_GOAL)
        case None => Err(InvalidGoal)
        case Some(normalized) => Ok(Candidate(reply, Some(normalized)))
  }

  // ----- Queries -----

  predicate ActiveMember(s: State, member: Member) {
    member in s.members && s.members[member]
  }

  /** `LockClaimingMachine` followed by the revocation check: the Machine's Space. */
  function ActiveMachineSpace(s: State, machine: Id): Result<Id, Error> {
    if machine !in s.machines then Err(MachineNotFound)
    else if s.machines[machine].revoked then Err(MachineRevoked)
    else Ok(s.machines[machine].space)
  }

  predicate HasUnresolvedReply(s: State, conversation: Id) {
    exists source ::
      source in s.claims && s.claims[source].conversation == conversation && s.claims[source].committedReply.None?
  }

  /** The join of a claim with its Conversation, source message and active membership. */
  predicate Joined(s: State, source: Id, space: Id) {
    && source in s.claims
    && source in s.messages
    && s.claims[source].conversation in s.conversations
    && s.conversations[s.claims[source].conversation].owner.space == space
    && ActiveMember(s, s.conversations[s.claims[source].conversation].owner)
  }

  predicate Available(claim: Claim, now: int) {
    claim.committedReply.None? && (claim.machine.None? || claim.leaseExpiresAt <= now)
  }

  predicate Current(claim: Claim, machine: Id, fence: int) {
    claim.machine == Some(machine) && claim.fence == fence
  }

  predicate Live(claim: Claim, machine: Id, fence: int, now: int) {
    Current(claim, machine, fence) && now < claim.leaseExpiresAt && claim.committedReply.None?
  }

  datatype Row = Row(position: nat, content: ContextMessage)

  function RowAt(s: State, slot: Slot): seq<Row> {
    if slot in s.bySlot && s.bySlot[slot] in s.messages
    then [Row(slot.position, s.messages[s.bySlot[slot]].content)]
    else []
  }

  /** `ListFixedConversationReplyContext`: rows `first..last` in sequence order. */
  function Rows(s: State, conversation: Id, first: nat, last: nat): seq<Row>
    decreases last
  {
    if last < first || last == 0 then []
    else Rows(s, conversation, first, last - 1) + RowAt(s, Slot(conversation, last))
  }

  /** `ListConversationContextCandidates`: the newest `limit` rows up to `last`, oldest first. */
  function NewestRows(s: State, conversation: Id, last: nat, limit: nat): seq<Row>
    decreases last
  {
    if limit == 0 || last == 0 then []
    else
      var row := RowAt(s, Slot(conversation, last));
      NewestRows(s, conversation, last - 1, if row == [] then limit else limit - 1) + row
  }

  function Contents(rows: seq<Row>): (messages: seq<ContextMessage>)
    ensures |messages| == |rows|
    ensures forall i :: 0 <= i < |rows| ==> messages[i] == rows[i].content
  {
    seq(|rows|, i requires 0 <= i < |rows| => rows[i].content)
  }

  /** `fixedReplyContextRange`: a recorded range is reused, otherwise one is selected. */
  function ContextRange(s: State, source: Id): Result<(nat, nat), Error>
    requires source in s.claims && source in s.messages
  {
    var claim, sourceSeq := s.claims[source], s.messages[source].slot.position;
    if claim.contextStart.Some? || claim.contextEnd.Some? then
      if claim.contextStart.None? || claim.contextEnd.None? || claim.contextEnd.value != sourceSeq
      then Err(ContextUnusable)
      else Ok((claim.contextStart.value, claim.contextEnd.value))
    else
      var rows := NewestRows(s, claim.conversation, sourceSeq, MAX_CONTEXT_MESSAGES);
      match FixedSuffix(Contents(rows))
      case Err(_) => Err(ContextUnusable)
      case Ok(fixed) => Ok((rows[|rows| - |fixed|].position, sourceSeq))
  }

  // ----- Transactions -----

  /** `SendConversationMessage`: admission, exact replay and the pending-reply gate. */
  function Send(s: State, command: SendCommand, newConversation: Id, newMessage: Id): (State, Result<Sent, Error>) {
    match Normalize(command.text, MAX_MESSAGE_TEXT)
    case None => (s, Err(InvalidText))
    case Some(text) =>
      match Normalize(command.key, MAX_KEY)
      case None => (s, Err(InvalidIdempotency))
      case Some(key) =>
        if !ActiveMember(s, command.member) then (s, Err(Forbidden))
        else if command.member !in s.byOwner && newConversation in s.conversations then (s, Err(DatabaseFailure))
        else
          var ensured := EnsureConversation(s, command.member, newConversation);
          var (admitted, result) := Admit(ensured, command.member, text, key, newMessage);
          if result.Ok? then (admitted, result) else (s, result)
  }

  function EnsureConversation(s: State, member: Member, newConversation: Id): State {
    if member in s.byOwner then s
    else s.(conversations := s.conversations[newConversation := Conversation(member, 0)],
            byOwner := s.byOwner[member := newConversation])
  }

  /** Admission once the Conversation exists and is locked. */
  function Admit(s: State, member: Member, text: Bytes, key: Bytes, newMessage: Id): (State, Result<Sent, Error>) {
    if member !in s.byOwner || s.byOwner[member] !in s.conversations then (s, Err(DatabaseFailure))
    else
      var conversation := s.byOwner[member];
      var digest := MessageDigest(member, text);
      var request := Request(conversation, key);
      if request in s.byRequest then
        var id := s.byRequest[request];
        if id !in s.messages then (s, Err(DatabaseFailure))
        else if s.messages[id].digest != digest then (s, Err(IdempotencyConflict))
        else (s, Ok(Sent(id, s.messages[id])))
      else if HasUnresolvedReply(s, conversation) then (s, Err(ReplyPending))
      else
        var position := s.conversations[conversation].head + 1;
        var slot := Slot(conversation, position);
        if newMessage in s.messages || slot in s.bySlot || newMessage in s.claims then (s, Err(DatabaseFailure))
        else
          var message := Message(slot, ContextMessage(Author.Member, text), Some(key), digest, None);
          (s.(conversations := s.conversations[conversation := s.conversations[conversation].(head := position)],
              messages := s.messages[newMessage := message],
              bySlot := s.bySlot[slot := newMessage],
              byRequest := s.byRequest[request := newMessage],
              claims := s.claims[newMessage := FreshClaim(conversation)]),
           Ok(Sent(newMessage, message)))
  }

  function FreshClaim(conversation: Id): Claim {
    Claim(conversation, None, 0, 0, None, None, [], None, None)
  }

  /** `ClaimConversationReply`: one Machine is granted a fixed context under the next fence. */
  function ClaimReply(s: State, command: ClaimCommand): (State, Result<Grant, Error>) {
    match ActiveMachineSpace(s, command.machine)
    case Err(error) => (s, Err(error))
    case Ok(space) =>
      if command.choice.None? then (s, Err(NoReplyAvailable))
      else
        var source := command.choice.value;
        if !Joined(s, source, space) || !Available(s.claims[source], command.selectedAt)
        then (s, Err(NoReplyAvailable))
        else
          match ContextRange(s, source)
          case Err(error) => (s, Err(error))
          case Ok((first, last)) =>
            if !Available(s.claims[source], command.assignedAt) then (s, Err(NoReplyAvailable))
            else
              var claim := Assigned(s.claims[source], command.machine, command.assignedAt, first, last);
              var messages := Contents(Rows(s, claim.conversation, first, last));
              if FixedSuffix(messages).Err? || |FixedSuffix(messages).value| != |messages|
              then (s, Err(ContextUnusable))
              else (s.(claims := s.claims[source := claim]),
                    Ok(Grant(source, claim.fence, claim.leaseExpiresAt, messages)))
  }

  function Assigned(claim: Claim, machine: Id, now: int, first: nat, last: nat): Claim {
    claim.(machine := Some(machine), fence := claim.fence + 1, leaseExpiresAt := now + LEASE,
           contextStart := Some(first), contextEnd := Some(last))
  }

  /** `RenewConversationReply`: only the current unexpired claim is extended. */
  function Renew(s: State, command: RenewCommand): (State, Result<int, Error>) {
    if command.fence <= 0 then (s, Err(StaleReplyClaim))
    else
      match ActiveMachineSpace(s, command.machine)
      case Err(error) => (s, Err(error))
      case Ok(space) =>
        if !Joined(s, command.source, space)
           || !Live(s.claims[command.source], command.machine, command.fence, command.lockedAt)
           || !Live(s.claims[command.source], command.machine, command.fence, command.extendedAt)
        then (s, Err(StaleReplyClaim))
        else
          var expiry := command.extendedAt + LEASE;
          (s.(claims := s.claims[command.source := s.claims[command.source].(leaseExpiresAt := expiry)]), Ok(expiry))
  }

  /** `CommitConversationReply`: one reply, its optional Work, and exact replay. */
  function Commit(s: State, command: CommitCommand, newReply: Id, newWork: Id): (State, Result<Committed, Error>) {
    if command.fence <= 0 then (s, Err(StaleReplyClaim))
    else
      match NormalizeCandidate(command.candidate)
      case Err(error) => (s, Err(error))
      case Ok(candidate) =>
        match ActiveMachineSpace(s, command.machine)
        case Err(error) => (s, Err(error))
        case Ok(space) =>
          if !Joined(s, command.source, space) || !Current(s.claims[command.source], command.machine, command.fence)
          then (s, Err(StaleReplyClaim))
          else
            var claim := s.claims[command.source];
            if claim.committedReply.Some? then
              if claim.outputDigest != OutputDigest(command.source, candidate) then (s, Err(ReplyConflict))
              else (s, Ok(Committed(claim.committedReply.value, claim.createdWork)))
            else CommitFirst(s, command, candidate, newReply, newWork)
  }

  /** The write half of a commit, behind the head guards and both lease readings. */
  function CommitFirst(s: State, command: CommitCommand, candidate: Candidate, newReply: Id, newWork: Id)
    : (State, Result<Committed, Error>)
    requires command.source in s.claims && command.source in s.messages
    requires s.claims[command.source].conversation in s.conversations
  {
    var claim := s.claims[command.source];
    var conversation := s.conversations[claim.conversation];
    var sourceSeq := s.messages[command.source].slot.position;
    var slot := Slot(claim.conversation, conversation.head + 1);
    if conversation.head != sourceSeq || claim.leaseExpiresAt <= command.checkedAt then (s, Err(StaleReplyClaim))
    else if candidate.goal.Some? && newWork in s.works then (s, Err(DatabaseFailure))
    else if conversation.head + 1 != sourceSeq + 1 then (s, Err(StaleReplyClaim))
    else if newReply in s.messages || slot in s.bySlot then (s, Err(DatabaseFailure))
    else if !Live(claim, command.machine, command.fence, command.completedAt) then (s, Err(StaleReplyClaim))
    else
      var work := if candidate.goal.Some? then Some(newWork) else None;
      var reply := Message(slot, ContextMessage(Carry, candidate.reply), None, [], Some(command.source));
      (s.(works := if candidate.goal.Some?
                   then s.works[newWork := Work(conversation.owner.space, conversation.owner.user, candidate.goal.value)]
                   else s.works,
          conversations := s.conversations[claim.conversation := conversation.(head := conversation.head + 1)],
          messages := s.messages[newReply := reply],
          bySlot := s.bySlot[slot := newReply],
          claims := s.claims[command.source := claim.(outputDigest := OutputDigest(command.source, candidate),
                                                      committedReply := Some(newReply),
                                                      createdWork := work)]),
       Ok(Committed(newReply, work)))
  }

  // ----- Runs -----

  /** One transaction, or any change other transactions make to Machines and memberships. */
  datatype Op =
    | OpSend(send: SendCommand, newConversation: Id, newMessage: Id)
    | OpClaim(claim: ClaimCommand)
    | OpRenew(renew: RenewCommand)
    | OpCommit(commit: CommitCommand, newReply: Id, newWork: Id)
    | OpEnvironment(machines: map<Id, Machine>, members: map<Member, bool>)

  function Apply(s: State, op: Op): State {
    match op
    case OpSend(send, newConversation, newMessage) => Send(s, send, newConversation, newMessage).0
    case OpClaim(claim) => ClaimReply(s, claim).0
    case OpRenew(renew) => Renew(s, renew).0
    case OpCommit(commit, newReply, newWork) => Commit(s, commit, newReply, newWork).0
    case OpEnvironment(machines, members) => s.(machines := machines, members := members)
  }

  function Run(s: State, ops: seq<Op>): State
    decreases |ops|
  {
    if ops == [] then s else Apply(Run(s, ops[..|ops| - 1]), ops[|ops| - 1])
  }

  function Empty(machines: map<Id, Machine>, members: map<Member, bool>): State {
    State(machines, members, map[], map[], map[], map[], map[], map[], map[])
  }
}
