/** Exactly when the reply protocol's requests succeed, told from the rows alone. */
module ReplyOutcomes {
  import opened Wrappers
  import opened Ids
  import opened Text
  import opened Context
  import opened Reply
  import opened ReplyInvariant
  import opened ReplyRuns
  import opened ReplyTheorems

  // ----- Sending -----

  lemma UnresolvedIsOddHead(s: State, c: Id)
    requires Numbered(s) && Claimed(s)
    ensures HasUnresolvedReply(s, c) <==> Head(s, c) % 2 == 1
  {
    hide Numbered, Claimed, ClaimShape;
    if Head(s, c) % 2 == 1 { OddHeadIsPending(s, c); }
    if HasUnresolvedReply(s, c) {
      var source :| source in s.claims && s.claims[source].conversation == c && s.claims[source].committedReply.None?;
      PendingIsNewest(s, source);
    }
  }

  lemma PendingIsNewest(s: State, source: Id)
    requires Numbered(s) && Claimed(s) && source in s.claims && s.claims[source].committedReply.None?
    ensures Head(s, s.claims[source].conversation) % 2 == 1
  {
    ClaimKnown(s, source);
  }

  /** A message under fresh identities is admitted to a Conversation exactly after an even head. */
  lemma AdmitIff(s: State, member: Member, text: Bytes, key: Bytes, newMessage: Id)
    requires Inv(s) && member in s.byOwner && newMessage !in s.messages
    requires Request(s.byOwner[member], key) !in s.byRequest
    ensures var c := s.byOwner[member];
      var (t, r) := Admit(s, member, text, key, newMessage);
      && c in s.conversations
      && (if Head(s, c) % 2 == 0
          then
            && r.Ok? && r.value.id == newMessage && newMessage in t.messages && r.value.message == t.messages[newMessage]
            && r.value.message.slot == Slot(c, s.conversations[c].head + 1)
            && r.value.message.content == ContextMessage(Author.Member, text)
            && r.value.message.request == Some(key) && r.value.message.replyTo == None
            && t.messages == s.messages[newMessage := r.value.message] && t.byOwner == s.byOwner
            && t.conversations == s.conversations[c := s.conversations[c].(head := s.conversations[c].head + 1)]
            && newMessage in t.claims && t.claims == s.claims[newMessage := t.claims[newMessage]]
            && t.claims[newMessage].conversation == c && t.claims[newMessage].machine == None
            && t.claims[newMessage].committedReply == None
          else r == Err(ReplyPending))
  {
    hide HasUnresolvedReply, MessageDigest, Alternating, Answering, Requested, Fixed, Delegated, Recorded;
    var c := s.byOwner[member];
    UnresolvedIsOddHead(s, c);
    NextSlotIsFree(s, c);
    if newMessage in s.claims { ClaimKnown(s, newMessage); }
  }

  lemma NextSlotIsFree(s: State, c: Id)
    requires Numbered(s)
    ensures Slot(c, Head(s, c) + 1) !in s.bySlot
  {
    var slot := Slot(c, Head(s, c) + 1);
    assert slot in s.bySlot ==> slot.position <= Head(s, slot.conversation);
  }

  /**
    With admissible text and key and everything fresh, a message is admitted
    exactly from an active member to whom no reply is owed; it is stored, as
    normalized, right after the head, and a reply to it is owed to them.
   */
  lemma SendIff(s: State, command: SendCommand, newConversation: Id, newMessage: Id)
    requires ReplyTheorems.Reachable(s) && newConversation !in s.conversations && newMessage !in s.messages
    requires Normalize(command.text, MAX_MESSAGE_TEXT).Some? && Normalize(command.key, MAX_KEY).Some?
    requires command.member in s.byOwner ==>
      Request(s.byOwner[command.member], Normalize(command.key, MAX_KEY).value) !in s.byRequest
    ensures command.member in s.byOwner ==> s.byOwner[command.member] in s.conversations
    ensures var (t, r) := Send(s, command, newConversation, newMessage);
      var active := command.member in s.members && s.members[command.member];
      var c := if command.member in s.byOwner then s.byOwner[command.member] else newConversation;
      var head := if command.member in s.byOwner then s.conversations[c].head else 0;
      && (r.Ok? <==> active && head % 2 == 0)
      && (!active ==> r == Err(Forbidden))
      && (active && head % 2 == 1 ==> r == Err(ReplyPending))
      && (r.Err? ==> t == s)
      && (r.Ok? ==>
            && r.value.id == newMessage && newMessage in t.messages && r.value.message == t.messages[newMessage]
            && t.messages == s.messages[newMessage := r.value.message]
            && command.member in t.byOwner && t.byOwner[command.member] == c
            && c in t.conversations && t.conversations[c] == Conversation(command.member, head + 1)
            && r.value.message.slot == Slot(c, head + 1)
            && r.value.message.content == ContextMessage(Author.Member, Normalize(command.text, MAX_MESSAGE_TEXT).value)
            && r.value.message.request == Normalize(command.key, MAX_KEY)
            && newMessage in t.claims && t.claims[newMessage].conversation == c
            && t.claims[newMessage].machine == None && t.claims[newMessage].committedReply == None)
  {
    hide ReplyTheorems.Reachable, Inv, Normalize, Admit;
    ReachableInv(s);
    var ensured := EnsureConversation(s, command.member, newConversation);
    EnsureKeepsInv(s, command.member, newConversation);
    OwnersKnown(s, command.member);
    if command.member !in s.byOwner { NoRequests(s, newConversation, Normalize(command.key, MAX_KEY).value); }
    AdmitIff(ensured, command.member, Normalize(command.text, MAX_MESSAGE_TEXT).value, Normalize(command.key, MAX_KEY).value,
             newMessage);
  }

  lemma OwnersKnown(s: State, member: Member)
    requires Inv(s)
    ensures member in s.byOwner ==>
      s.byOwner[member] in s.conversations && s.conversations[s.byOwner[member]].owner == member
  {
    hide Numbered, Claimed, Alternating, Answering, Requested, Fixed, Delegated, Recorded;
  }

  lemma NoRequests(s: State, c: Id, key: Bytes)
    requires Inv(s) && c !in s.conversations
    ensures Request(c, key) !in s.byRequest
  {
    hide Numbered, Claimed, Alternating, Answering, Owned, Fixed, Delegated, Recorded, MessageDigest;
    var request := Request(c, key);
    assert request in s.byRequest ==> request.conversation in s.conversations;
  }

  // ----- Replying -----

  /** Nobody holds the claim at this time. */
  predicate Free(claim: Claim, now: int) {
    claim.committedReply == None && (claim.machine == None || claim.leaseExpiresAt <= now)
  }

  /** This Machine holds the claim under this fence at this time. */
  predicate Holds(claim: Claim, machine: Id, fence: int, now: int) {
    claim.committedReply == None && claim.machine == Some(machine) && claim.fence == fence && now < claim.leaseExpiresAt
  }

  /** An unrevoked Machine of the Space in which the claim's owner is an active member. */
  predicate Serves(s: State, machine: Id, source: Id) {
    && machine in s.machines && !s.machines[machine].revoked
    && source in s.claims && s.claims[source].conversation in s.conversations
    && var owner := s.conversations[s.claims[source].conversation].owner;
       owner.space == s.machines[machine].space && owner in s.members && s.members[owner]
  }

  /** A claim is granted exactly while nobody holds it, to a Machine that serves its member, for five minutes. */
  lemma ClaimIff(s: State, command: ClaimCommand)
    requires ReplyTheorems.Reachable(s)
    ensures var (t, r) := ClaimReply(s, command);
      && (r.Ok? <==>
            && command.choice.Some? && Serves(s, command.machine, command.choice.value)
            && Free(s.claims[command.choice.value], command.selectedAt)
            && Free(s.claims[command.choice.value], command.assignedAt))
      && (r.Err? ==> t == s)
      && (r.Ok? ==>
            && r.value.source == command.choice.value && r.value.source in s.claims && r.value.source in t.claims
            && t == s.(claims := s.claims[r.value.source := t.claims[r.value.source]])
            && r.value.fence == t.claims[r.value.source].fence == s.claims[r.value.source].fence + 1
            && Holds(t.claims[r.value.source], command.machine, r.value.fence, command.assignedAt)
            && r.value.leaseExpiresAt == t.claims[r.value.source].leaseExpiresAt == command.assignedAt + 300_000_000)
  {
    hide ReplyTheorems.Reachable, Inv, FixedSuffix, ContextRange, Rows, Contents, ContextOf;
    ReachableInv(s);
    GrantIff(s, command);
    if command.choice.Some? && command.choice.value in s.claims { GrantedContext(s, command.choice.value); }
  }

  /** A renewal succeeds exactly for the holder, at both readings of the clock, and gives it five minutes more. */
  lemma RenewalIff(s: State, command: RenewCommand)
    requires ReplyTheorems.Reachable(s)
    ensures var (t, r) := Renew(s, command);
      && (r.Ok? <==>
            && Serves(s, command.machine, command.source)
            && Holds(s.claims[command.source], command.machine, command.fence, command.lockedAt)
            && Holds(s.claims[command.source], command.machine, command.fence, command.extendedAt))
      && (r.Err? ==> t == s)
      && (r.Ok? ==>
            && r.value == command.extendedAt + 300_000_000
            && command.source in s.claims
            && t == s.(claims := s.claims[command.source := s.claims[command.source].(leaseExpiresAt := r.value)]))
  {
    hide ReplyTheorems.Reachable, Inv;
    ReachableInv(s);
    RenewIff(s, command);
    if command.source in s.claims { ClaimedSource(s, command.source); }
  }

  lemma ClaimedSource(s: State, source: Id)
    requires Inv(s) && source in s.claims
    ensures source in s.messages && s.claims[source].conversation in s.conversations
    ensures s.messages[source].slot.conversation == s.claims[source].conversation
  {
    hide Alternating, Answering, Owned, Requested, Fixed, Delegated, Recorded;
    ClaimKnown(s, source);
    SourceSlot(s, source);
  }

  /**
    A first reply is written exactly for the holder, with an admissible reply and
    no inadmissible goal. It is stored, normalized, after its source, and the goal,
    normalized, as a Work of the member who is answered.
   */
  lemma ReplyIff(s: State, command: CommitCommand, newReply: Id, newWork: Id)
    requires ReplyTheorems.Reachable(s) && newReply !in s.messages && newWork !in s.works
    ensures Commit(s, command, newReply, newWork).0 != s <==>
      && Normalize(command.candidate.reply, MAX_MESSAGE_TEXT).Some?
      && (command.candidate.goal.Some? ==> Normalize(command.candidate.goal.value, MAX_GOAL).Some?)
      && Serves(s, command.machine, command.source)
      && Holds(s.claims[command.source], command.machine, command.fence, command.checkedAt)
      && Holds(s.claims[command.source], command.machine, command.fence, command.completedAt)
    ensures Commit(s, command, newReply, newWork).0 != s ==> Replied(s, command, newReply, newWork)
  {
    hide ReplyTheorems.Reachable, Inv, Commit, Normalize, Replied;
    ReachableInv(s);
    CommitIff(s, command, newReply, newWork);
    if command.source in s.claims { ClaimedSource(s, command.source); }
    if Commit(s, command, newReply, newWork).0 != s { ReplyRecords(s, command, newReply, newWork); }
  }

  /** What a first reply leaves and answers. */
  ghost predicate Replied(s: State, command: CommitCommand, newReply: Id, newWork: Id) {
    && command.source in s.claims && command.source in s.messages && s.claims[command.source].conversation in s.conversations
    && var (t, r) := Commit(s, command, newReply, newWork);
       var goal := command.candidate.goal;
       var owner := s.conversations[s.claims[command.source].conversation].owner;
       var work := if goal.Some? then Some(newWork) else None;
       && r == Ok(Committed(newReply, work))
       && newReply in t.messages
       && Some(t.messages[newReply].content.text) == Normalize(command.candidate.reply, MAX_MESSAGE_TEXT)
       && t.messages[newReply].slot.conversation == s.claims[command.source].conversation
       && t.messages[newReply].slot.position == s.messages[command.source].slot.position + 1
       && command.source in t.claims && t.claims[command.source].committedReply == Some(newReply)
       && t.claims[command.source].createdWork == work
       && (goal.None? ==> t.works == s.works)
       && (goal.Some? ==>
             && Normalize(goal.value, MAX_GOAL).Some?
             && t.works == s.works[newWork := Work(owner.space, owner.user, Normalize(goal.value, MAX_GOAL).value)])
  }

  lemma ReplyRecords(s: State, command: CommitCommand, newReply: Id, newWork: Id)
    requires ReplyTheorems.Reachable(s) && Commit(s, command, newReply, newWork).0 != s
    ensures Replied(s, command, newReply, newWork)
  {
    hide ReplyTheorems.Reachable, Inv, Commit, Normalize, OutputDigest, Joined, ActiveMachineSpace, Live;
    ReachableInv(s);
    CommitIff(s, command, newReply, newWork);
    CommittedWork(s, command, newReply, newWork);
    ClaimedSource(s, command.source);
    CommitRecords(s, command, newReply, newWork);
    WorkRecorded(s, command, newReply, newWork);
  }

  lemma WorkRecorded(s: State, command: CommitCommand, newReply: Id, newWork: Id)
    requires Commit(s, command, newReply, newWork).0 != s
    ensures NormalizeCandidate(command.candidate).Ok?
    ensures command.source in s.claims && s.claims[command.source].conversation in s.conversations
    ensures var goal := NormalizeCandidate(command.candidate).value.goal;
      var owner := s.conversations[s.claims[command.source].conversation].owner;
      Commit(s, command, newReply, newWork).0.works
        == if goal.None? then s.works else s.works[newWork := Work(owner.space, owner.user, goal.value)]
  {
    hide NormalizeCandidate, OutputDigest, ActiveMember, ActiveMachineSpace;
  }
}
