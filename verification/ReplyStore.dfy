/** The reply transactions as they run against the tables, with commit and rollback. */
module ReplyStore {
  import opened Wrappers
  import opened Ids
  import opened Text
  import opened Context
  import opened Reply

  class Store {
    var machines: map<Id, Machine>
    var members: map<Member, bool>
    var conversations: map<Id, Conversation>
    var byOwner: map<Member, Id>
    var messages: map<Id, Message>
    var bySlot: map<Slot, Id>
    var byRequest: map<Request, Id>
    var claims: map<Id, Claim>
    var works: map<Id, Work>

    constructor (machines: map<Id, Machine>, members: map<Member, bool>)
      ensures Tables() == Empty(machines, members)
    {
      this.machines, this.members := machines, members;
      conversations, byOwner, messages, bySlot, byRequest := map[], map[], map[], map[], map[];
      claims, works := map[], map[];
    }

    /** The committed rows. */
    function Tables(): State
      reads this
    {
      State(machines, members, conversations, byOwner, messages, bySlot, byRequest, claims, works)
    }

    /** Discards everything the transaction wrote. */
    method Rollback(saved: State)
      modifies this
      ensures Tables() == saved
    {
      machines, members, conversations, byOwner := saved.machines, saved.members, saved.conversations, saved.byOwner;
      messages, bySlot, byRequest := saved.messages, saved.bySlot, saved.byRequest;
      claims, works := saved.claims, saved.works;
    }

    /** `AdvanceConversationMessageHead`. */
    method AdvanceHead(conversation: Id) returns (head: nat)
      requires conversation in conversations
      modifies this`conversations
      ensures head == old(conversations[conversation].head) + 1
      ensures conversations ==
        old(conversations)[conversation := old(conversations[conversation]).(head := head)]
    {
      head := conversations[conversation].head + 1;
      conversations := conversations[conversation := conversations[conversation].(head := head)];
    }

    /** Inserts a message row, unless one of its unique keys is taken. */
    method InsertMessage(id: Id, message: Message) returns (inserted: bool)
      modifies this`messages, this`bySlot
      ensures inserted == (id !in old(messages) && message.slot !in old(bySlot))
      ensures inserted ==> messages == old(messages)[id := message] && bySlot == old(bySlot)[message.slot := id]
      ensures !inserted ==> messages == old(messages) && bySlot == old(bySlot)
    {
      if id in messages || message.slot in bySlot {
        return false;
      }
      messages := messages[id := message];
      bySlot := bySlot[message.slot := id];
      return true;
    }

    /** `EnsureConversation`: the member's Conversation, created on first use. */
    method Ensure(member: Member, newConversation: Id) returns (ok: bool)
      modifies this`conversations, this`byOwner
      ensures ok == (member in old(byOwner) || newConversation !in old(conversations))
      ensures Tables() == if ok then EnsureConversation(old(Tables()), member, newConversation) else old(Tables())
    {
      if member !in byOwner {
        if newConversation in conversations {
          return false;
        }
        conversations := conversations[newConversation := Conversation(member, 0)];
        byOwner := byOwner[member := newConversation];
      }
      return true;
    }

    /** Inserts the member's message with its key and its reply claim. */
    method AdmitMessage(conversation: Id, text: Bytes, key: Bytes, digest: Bytes, newMessage: Id)
      returns (r: Result<Sent, Error>)
      requires conversation in conversations
      modifies this`conversations, this`messages, this`bySlot, this`byRequest, this`claims
      ensures var position := old(conversations[conversation].head) + 1;
        var slot := Slot(conversation, position);
        var message := Message(slot, ContextMessage(Author.Member, text), Some(key), digest, None);
        if newMessage in old(messages) || slot in old(bySlot) || newMessage in old(claims)
        then r == Err(DatabaseFailure)
        else
          && r == Ok(Sent(newMessage, message))
          && conversations == old(conversations)[conversation := old(conversations[conversation]).(head := position)]
          && messages == old(messages)[newMessage := message]
          && bySlot == old(bySlot)[slot := newMessage]
          && byRequest == old(byRequest)[Request(conversation, key) := newMessage]
          && claims == old(claims)[newMessage := FreshClaim(conversation)]
    {
      var sequence := AdvanceHead(conversation);
      var message := Message(Slot(conversation, sequence), ContextMessage(Author.Member, text),
                             Some(key), digest, None);
      var inserted := InsertMessage(newMessage, message);
      if !inserted || newMessage in claims {
        return Err(DatabaseFailure);
      }
      byRequest := byRequest[Request(conversation, key) := newMessage];
      claims := claims[newMessage := FreshClaim(conversation)];
      return Ok(Sent(newMessage, message));
    }

    /** The transaction from the locked Conversation on. */
    method AdmitLocked(member: Member, text: Bytes, key: Bytes, digest: Bytes, newMessage: Id)
      returns (r: Result<Sent, Error>)
      requires digest == MessageDigest(member, text)
      modifies this
      ensures r == Admit(old(Tables()), member, text, key, newMessage).1
      ensures r.Ok? ==> Tables() == Admit(old(Tables()), member, text, key, newMessage).0
    {
      hide MessageDigest, HasUnresolvedReply, FreshClaim;
      if member !in byOwner || byOwner[member] !in conversations {
        return Err(DatabaseFailure);
      }
      var conversation := byOwner[member];
      var request := Request(conversation, key);
      if request in byRequest {
        var existing := byRequest[request];
        if existing !in messages {
          return Err(DatabaseFailure);
        }
        if messages[existing].digest != digest {
          return Err(IdempotencyConflict);
        }
        return Ok(Sent(existing, messages[existing]));
      }
      if HasUnresolvedReply(Tables(), conversation) {
        return Err(ReplyPending);
      }
      r := AdmitMessage(conversation, text, key, digest, newMessage);
    }

    method SendConversationMessage(command: SendCommand, newConversation: Id, newMessage: Id)
      returns (r: Result<Sent, Error>)
      modifies this
      ensures (Tables(), r) == Send(old(Tables()), command, newConversation, newMessage)
    {
      hide Normalize, MessageDigest, ActiveMember, Admit, EnsureConversation;
      var text := Normalize(command.text, MAX_MESSAGE_TEXT);
      if text.None? {
        return Err(InvalidText);
      }
      var key := Normalize(command.key, MAX_KEY);
      if key.None? {
        return Err(InvalidIdempotency);
      }
      var digest := MessageDigest(command.member, text.value);
      var saved := Tables();
      if !ActiveMember(saved, command.member) {
        return Err(Forbidden);
      }
      var ensured := Ensure(command.member, newConversation);
      if !ensured {
        return Err(DatabaseFailure);
      }
      r := AdmitLocked(command.member, text.value, key.value, digest, newMessage);
      if r.Err? {
        Rollback(saved);
      }
    }

    method ClaimConversationReply(command: ClaimCommand) returns (r: Result<Grant, Error>)
      modifies this
      ensures (Tables(), r) == ClaimReply(old(Tables()), command)
    {
      var saved := Tables();
      var space := ActiveMachineSpace(saved, command.machine);
      if space.Err? {
        return Err(space.error);
      }
      if command.choice.None? {
        return Err(NoReplyAvailable);
      }
      var source := command.choice.value;
      if !Joined(saved, source, space.value) || !Available(claims[source], command.selectedAt) {
        return Err(NoReplyAvailable);
      }
      var range := ContextRange(saved, source);
      if range.Err? {
        return Err(range.error);
      }
      if !Available(claims[source], command.assignedAt) {
        return Err(NoReplyAvailable);
      }
      var (first, last) := range.value;
      claims := claims[source := claims[source].(
        machine := Some(command.machine),
        fence := claims[source].fence + 1,
        leaseExpiresAt := command.assignedAt + LEASE,
        contextStart := Some(first),
        contextEnd := Some(last))];
      var messages := Contents(Rows(saved, claims[source].conversation, first, last));
      var fixed := FixedContextSuffix(messages);
      if fixed.Err? || |fixed.value| != |messages| {
        Rollback(saved);
        return Err(ContextUnusable);
      }
      return Ok(Grant(source, claims[source].fence, claims[source].leaseExpiresAt, messages));
    }

    method RenewConversationReply(command: RenewCommand) returns (r: Result<int, Error>)
      modifies this
      ensures (Tables(), r) == Renew(old(Tables()), command)
    {
      if command.fence <= 0 {
        return Err(StaleReplyClaim);
      }
      var space := ActiveMachineSpace(Tables(), command.machine);
      if space.Err? {
        return Err(space.error);
      }
      if !Joined(Tables(), command.source, space.value)
         || !Live(claims[command.source], command.machine, command.fence, command.lockedAt) {
        return Err(StaleReplyClaim);
      }
      if !Live(claims[command.source], command.machine, command.fence, command.extendedAt) {
        return Err(StaleReplyClaim);
      }
      var expiry := command.extendedAt + LEASE;
      claims := claims[command.source := claims[command.source].(leaseExpiresAt := expiry)];
      return Ok(expiry);
    }

    /** `createDelegatedWork`: the Work belongs to the Conversation's owner. */
    method CreateDelegatedWork(owner: Member, goal: Option<Bytes>, newWork: Id) returns (r: Result<Option<Id>, Error>)
      modifies this`works
      ensures r.Err? <==> goal.Some? && newWork in old(works)
      ensures r.Err? ==> r.error == DatabaseFailure && works == old(works)
      ensures r.Ok? && goal.None? ==> r.value == None && works == old(works)
      ensures r.Ok? && goal.Some? ==>
        r.value == Some(newWork) && works == old(works)[newWork := Work(owner.space, owner.user, goal.value)]
    {
      if goal.None? {
        return Ok(None);
      }
      if newWork in works {
        return Err(DatabaseFailure);
      }
      works := works[newWork := Work(owner.space, owner.user, goal.value)];
      return Ok(Some(newWork));
    }

    /** The transaction from the locked, uncommitted current claim on. */
    method CommitLocked(command: CommitCommand, candidate: Candidate, digest: Bytes, newReply: Id, newWork: Id)
      returns (r: Result<Committed, Error>)
      requires digest == OutputDigest(command.source, candidate)
      requires command.source in claims && command.source in messages
      requires claims[command.source].conversation in conversations
      modifies this
      ensures r == CommitFirst(old(Tables()), command, candidate, newReply, newWork).1
      ensures r.Ok? ==> Tables() == CommitFirst(old(Tables()), command, candidate, newReply, newWork).0
    {
      hide OutputDigest;
      var claim := claims[command.source];
      var conversation := conversations[claim.conversation];
      var sourceSeq := messages[command.source].slot.position;
      if conversation.head != sourceSeq || claim.leaseExpiresAt <= command.checkedAt {
        return Err(StaleReplyClaim);
      }
      var createdWork := CreateDelegatedWork(conversation.owner, candidate.goal, newWork);
      if createdWork.Err? {
        return Err(createdWork.error);
      }
      var replySequence := AdvanceHead(claim.conversation);
      if replySequence != sourceSeq + 1 {
        return Err(StaleReplyClaim);
      }
      var reply := Message(Slot(claim.conversation, replySequence), ContextMessage(Carry, candidate.reply), None, [],
                           Some(command.source));
      var inserted := InsertMessage(newReply, reply);
      if !inserted {
        return Err(DatabaseFailure);
      }
      if !Live(claims[command.source], command.machine, command.fence, command.completedAt) {
        return Err(StaleReplyClaim);
      }
      claims := claims[command.source := claims[command.source].(
        outputDigest := digest,
        committedReply := Some(newReply),
        createdWork := createdWork.value)];
      return Ok(Committed(newReply, createdWork.value));
    }

    method CommitConversationReply(command: CommitCommand, newReply: Id, newWork: Id)
      returns (r: Result<Committed, Error>)
      modifies this
      ensures (Tables(), r) == Commit(old(Tables()), command, newReply, newWork)
    {
      hide NormalizeCandidate, OutputDigest, ActiveMember, ActiveMachineSpace, Current, CommitFirst;
      if command.fence <= 0 {
        return Err(StaleReplyClaim);
      }
      var normalized := NormalizeCandidate(command.candidate);
      if normalized.Err? {
        return Err(normalized.error);
      }
      var candidate := normalized.value;
      var digest := OutputDigest(command.source, candidate);
      var saved := Tables();
      var space := ActiveMachineSpace(saved, command.machine);
      if space.Err? {
        return Err(space.error);
      }
      if !Joined(saved, command.source, space.value)
         || !Current(claims[command.source], command.machine, command.fence) {
        return Err(StaleReplyClaim);
      }
      var claim := claims[command.source];
      if claim.committedReply.Some? {
        if claim.outputDigest != digest {
          return Err(ReplyConflict);
        }
        return Ok(Committed(claim.committedReply.value, claim.createdWork));
      }
      r := CommitLocked(command, candidate, digest, newReply, newWork);
      if r.Err? {
        Rollback(saved);
        CommitFirstRefused(saved, command, candidate, newReply, newWork);
      }
    }
  }

  lemma CommitFirstRefused(s: State, command: CommitCommand, candidate: Candidate, newReply: Id, newWork: Id)
    requires command.source in s.claims && command.source in s.messages
    requires s.claims[command.source].conversation in s.conversations
    requires CommitFirst(s, command, candidate, newReply, newWork).1.Err?
    ensures CommitFirst(s, command, candidate, newReply, newWork).0 == s
  {
    hide OutputDigest;
  }
}
