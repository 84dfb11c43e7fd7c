/** Preservation of the reply invariant by every transaction. */
module ReplyRuns {
  import opened Wrappers
  import opened Ids
  import opened Text
  import opened Context
  import opened Reply
  import opened ReplyInvariant

  /** An odd head is exactly one pending reply, owed to the newest message. */
  lemma OddHeadIsPending(s: State, c: Id)
    requires Numbered(s) && Claimed(s) && Head(s, c) % 2 == 1
    ensures Slot(c, Head(s, c)) in s.bySlot
    ensures var source := s.bySlot[Slot(c, Head(s, c))];
      source in s.claims && s.claims[source].conversation == c && s.claims[source].committedReply.None?
  {
    var slot := Slot(c, Head(s, c));
    assert slot in s.bySlot;
    var source := s.bySlot[slot];
    assert source in s.claims;
  }

  /** The pending gate admits a message only after an even head. */
  lemma NoPendingMeansEvenHead(s: State, c: Id)
    requires Numbered(s) && Claimed(s) && !HasUnresolvedReply(s, c)
    ensures Head(s, c) % 2 == 0
  {
    hide Numbered, Claimed;
    if Head(s, c) % 2 == 1 {
      OddHeadIsPending(s, c);
      assert false;
    }
  }

  // ----- Appending one entry to a Conversation -----

  /** `t` is `s` with message `id` as the next entry of Conversation `c`. */
  ghost predicate Appends(s: State, t: State, c: Id, id: Id, message: Message) {
    && c in s.conversations
    && id !in s.messages
    && message.slot == Slot(c, s.conversations[c].head + 1)
    && t.conversations == s.conversations[c := s.conversations[c].(head := s.conversations[c].head + 1)]
    && t.messages == s.messages[id := message]
    && t.bySlot == s.bySlot[message.slot := id]
    && t.byOwner == s.byOwner
  }

  lemma AppendNumbered(s: State, t: State, c: Id, id: Id, message: Message)
    requires Numbered(s) && Appends(s, t, c, id, message)
    ensures Numbered(t)
  {
    assert message.slot !in s.bySlot;
  }

  lemma AppendGrows(s: State, t: State, c: Id, id: Id, message: Message)
    requires Numbered(s) && Appends(s, t, c, id, message)
    ensures LogGrows(s, t)
  {
    assert message.slot !in s.bySlot;
  }

  lemma AppendAnswering(s: State, t: State, c: Id, id: Id, message: Message)
    requires Numbered(s) && Answering(s) && Appends(s, t, c, id, message)
    requires message.slot.position % 2 == 0 ==>
      Slot(c, s.conversations[c].head) in s.bySlot
      && message.replyTo == Some(s.bySlot[Slot(c, s.conversations[c].head)])
    ensures Answering(t)
  {
    AppendNumbered(s, t, c, id, message);
    forall a, b |
      a in t.messages && b in t.messages
      && t.messages[a].slot.conversation == t.messages[b].slot.conversation
      && t.messages[a].slot.position == t.messages[b].slot.position + 1
      && t.messages[a].slot.position % 2 == 0
      ensures t.messages[a].replyTo == Some(b)
    {
      if a == id {
        assert t.messages[b].slot == Slot(c, s.conversations[c].head);
      } else if b == id {
        assert false;
      }
    }
  }

  lemma AppendOwned(s: State, t: State, c: Id, id: Id, message: Message)
    requires Owned(s) && Appends(s, t, c, id, message)
    ensures Owned(t)
  {}

  lemma FixedStable(s: State, t: State)
    requires Numbered(s) && Claimed(s) && LogGrows(s, t) && Fixed(s)
    requires forall source :: source in t.claims && t.claims[source].contextStart.Some? ==>
      source in s.claims && s.claims[source].contextStart == t.claims[source].contextStart
    ensures Fixed(t)
  {
    forall source | source in t.claims && source in t.messages && t.claims[source].contextStart.Some?
      ensures t.claims[source].contextStart.value == Position(t, source) + 1 - |ContextOf(t, source)|
    {
      ContextStable(s, t, source);
    }
  }

  lemma RecordedStable(s: State, t: State)
    requires Recorded(s) && LogGrows(s, t)
    requires forall work :: work in s.works ==> work in t.works && t.works[work] == s.works[work]
    requires forall source :: source in t.claims && t.claims[source].committedReply.Some? ==>
      && source in s.claims
      && t.claims[source].committedReply == s.claims[source].committedReply
      && t.claims[source].createdWork == s.claims[source].createdWork
      && t.claims[source].outputDigest == s.claims[source].outputDigest
    ensures Recorded(t)
  {
    forall source | source in t.claims && t.claims[source].committedReply.Some?
      ensures t.claims[source].committedReply.value in t.messages
      ensures t.claims[source].createdWork.Some? ==> t.claims[source].createdWork.value in t.works
      ensures t.claims[source].outputDigest == OutputDigest(source, RecordedCandidate(t, t.claims[source]))
    {
      assert RecordedCandidate(t, t.claims[source]) == RecordedCandidate(s, s.claims[source]);
    }
  }

  lemma DelegatedStable(s: State, t: State)
    requires Delegated(s) && t.works == s.works
    requires forall c :: c in s.conversations ==> c in t.conversations && t.conversations[c].owner == s.conversations[c].owner
    requires forall source :: source in s.claims ==>
      source in t.claims && t.claims[source].createdWork == s.claims[source].createdWork
    requires forall source :: source in t.claims && t.claims[source].createdWork.Some? ==>
      source in s.claims && t.claims[source].conversation == s.claims[source].conversation
    ensures Delegated(t)
  {
    forall work | work in t.works ensures Delegates(t, work) {
      assert Delegates(s, work);
      var source :| source in s.claims && s.claims[source].createdWork == Some(work);
      assert t.claims[source].createdWork == Some(work);
    }
    forall source | source in t.claims && t.claims[source].createdWork.Some? ensures OwnedWork(t, source) {
      assert OwnedWork(s, source);
    }
  }

  // ----- Send -----

  lemma EnsureKeepsInv(s: State, owner: Member, newConversation: Id)
    requires Inv(s) && (owner in s.byOwner || newConversation !in s.conversations)
    ensures Inv(EnsureConversation(s, owner, newConversation))
  {
    hide Numbered, Alternating, Answering, Owned, Requested, Claimed, Fixed, Delegated, Recorded;
    var t := EnsureConversation(s, owner, newConversation);
    if owner !in s.byOwner {
      EnsureSimple(s, t, owner, newConversation);
      EnsureNumbered(s, t, owner, newConversation);
      FixedStable(s, t);
      EnsureClaimed(s, t, owner, newConversation);
      EnsureRequested(s, t, owner, newConversation);
      DelegatedStable(s, t);
      RecordedStable(s, t);
    }
  }

  lemma EnsureSimple(s: State, t: State, owner: Member, newConversation: Id)
    requires Alternating(s) && Answering(s) && Owned(s) && owner !in s.byOwner && newConversation !in s.conversations
    requires t == s.(conversations := s.conversations[newConversation := Conversation(owner, 0)],
                     byOwner := s.byOwner[owner := newConversation])
    ensures Alternating(t) && Answering(t) && Owned(t)
  {}

  lemma EnsureNumbered(s: State, t: State, owner: Member, newConversation: Id)
    requires Numbered(s) && newConversation !in s.conversations
    requires t == s.(conversations := s.conversations[newConversation := Conversation(owner, 0)],
                     byOwner := s.byOwner[owner := newConversation])
    ensures Numbered(t)
  {}

  lemma EnsureRequested(s: State, t: State, owner: Member, newConversation: Id)
    requires Requested(s) && newConversation !in s.conversations
    requires t == s.(conversations := s.conversations[newConversation := Conversation(owner, 0)],
                     byOwner := s.byOwner[owner := newConversation])
    ensures Requested(t)
  {
    hide MessageDigest;
    forall id | id in t.messages ensures Indexed(t, id) {
      assert Indexed(s, id);
    }
  }

  lemma EnsureClaimed(s: State, t: State, owner: Member, newConversation: Id)
    requires Numbered(s) && Numbered(t) && Claimed(s) && newConversation !in s.conversations
    requires t == s.(conversations := s.conversations[newConversation := Conversation(owner, 0)],
                     byOwner := s.byOwner[owner := newConversation])
    ensures Claimed(t)
  {
    forall source | source in t.claims ensures source in t.messages && ClaimShape(t, source) {
      assert ClaimShape(s, source);
      assert s.messages[source].slot in s.bySlot;
    }
  }

  /** An untouched claim keeps its shape, unless it is pending and its Conversation moved on. */
  lemma ShapeKept(s: State, t: State, source: Id)
    requires Numbered(s) && Numbered(t) && LogGrows(s, t)
    requires source in s.claims && source in s.messages && ClaimShape(s, source)
    requires source in t.claims && t.claims[source] == s.claims[source]
    requires s.claims[source].committedReply.None? ==>
      Head(t, s.claims[source].conversation) == Head(s, s.claims[source].conversation)
    ensures source in t.messages && ClaimShape(t, source)
  {}

  /** A member's entry opens its own claim; every other claim of the Conversation was settled. */
  lemma AppendMemberClaimed(s: State, t: State, c: Id, id: Id, message: Message)
    requires Numbered(s) && Claimed(s) && Appends(s, t, c, id, message) && Numbered(t) && LogGrows(s, t)
    requires Head(s, c) % 2 == 0 && id !in s.claims && t.claims == s.claims[id := FreshClaim(c)]
    ensures Claimed(t)
  {
    hide Numbered, LogGrows;
    forall source {:trigger source in t.claims} | source in t.claims
      ensures source in t.messages && ClaimShape(t, source)
    {
      if source != id {
        assert source in s.claims;
        ShapeKept(s, t, source);
      }
    }
    forall other {:trigger other in t.claims} | other in t.messages && t.messages[other].slot.position % 2 == 1
      ensures other in t.claims
    {
      assert other == id || other in s.claims;
    }
  }

  lemma AppendAlternating(s: State, t: State, c: Id, id: Id, message: Message)
    requires Alternating(s) && Appends(s, t, c, id, message)
    requires Admitted(message.content.text, MAX_MESSAGE_TEXT)
    requires message.content.author == (if message.slot.position % 2 == 1 then Author.Member else Carry)
    requires message.request.Some? <==> message.slot.position % 2 == 1
    ensures Alternating(t)
  {}

  lemma AdmitRequested(s: State, t: State, c: Id, id: Id, message: Message)
    requires Requested(s) && Appends(s, t, c, id, message)
    requires message.request.Some? ==>
      && Request(c, message.request.value) !in s.byRequest
      && t.byRequest == s.byRequest[Request(c, message.request.value) := id]
      && message.digest == MessageDigest(s.conversations[c].owner, message.content.text)
    requires message.request.None? ==> t.byRequest == s.byRequest
    ensures Requested(t)
  {
    hide MessageDigest;
    forall other | other in t.messages ensures Indexed(t, other) {
      assert other != id ==> Indexed(s, other);
    }
  }

  /** An admission that changes the store found no pending reply and appends one message. */
  lemma AdmitAppends(s: State, owner: Member, text: Bytes, key: Bytes, newMessage: Id)
    requires Admit(s, owner, text, key, newMessage).0 != s
    ensures owner in s.byOwner && s.byOwner[owner] in s.conversations
    ensures !HasUnresolvedReply(s, s.byOwner[owner])
    ensures var c := s.byOwner[owner];
      var t := Admit(s, owner, text, key, newMessage).0;
      var message := Message(Slot(c, s.conversations[c].head + 1), ContextMessage(Author.Member, text), Some(key),
                             MessageDigest(owner, text), None);
      && Appends(s, t, c, newMessage, message)
      && Request(c, key) !in s.byRequest && newMessage !in s.claims
      && t == State(s.machines, s.members, t.conversations, s.byOwner, t.messages, t.bySlot,
                    s.byRequest[Request(c, key) := newMessage], s.claims[newMessage := FreshClaim(c)], s.works)
  {
    hide MessageDigest, HasUnresolvedReply;
  }

  lemma AdmitKeepsInv(s: State, owner: Member, text: Bytes, key: Bytes, newMessage: Id)
    requires Inv(s) && Admitted(text, MAX_MESSAGE_TEXT)
    ensures Inv(Admit(s, owner, text, key, newMessage).0)
  {
    hide Numbered, Alternating, Answering, Requested, Claimed, Fixed, Delegated, Recorded, MessageDigest, Admitted, Admit, HasUnresolvedReply;
    var t := Admit(s, owner, text, key, newMessage).0;
    if t != s {
      AdmitAppends(s, owner, text, key, newMessage);
      var c := s.byOwner[owner];
      AdmissionKeepsInv(s, t, c, newMessage, t.messages[newMessage]);
    }
  }

  /** What every append keeps of the log, whoever wrote the entry. */
  lemma AppendKeepsLog(s: State, t: State, c: Id, id: Id, message: Message)
    requires Numbered(s) && Alternating(s) && Answering(s) && Owned(s) && Requested(s) && Appends(s, t, c, id, message)
    requires Admitted(message.content.text, MAX_MESSAGE_TEXT)
    requires message.content.author == (if message.slot.position % 2 == 1 then Author.Member else Carry)
    requires message.request.Some? <==> message.slot.position % 2 == 1
    requires message.slot.position % 2 == 0 ==>
      Slot(c, s.conversations[c].head) in s.bySlot
      && message.replyTo == Some(s.bySlot[Slot(c, s.conversations[c].head)])
    requires message.request.Some? ==>
      && Request(c, message.request.value) !in s.byRequest
      && t.byRequest == s.byRequest[Request(c, message.request.value) := id]
      && message.digest == MessageDigest(s.conversations[c].owner, message.content.text)
    requires message.request.None? ==> t.byRequest == s.byRequest
    ensures Numbered(t) && LogGrows(s, t) && Alternating(t) && Answering(t) && Owned(t) && Requested(t)
  {
    hide Numbered, Alternating, Answering, Owned, Requested, LogGrows, MessageDigest, Admitted, Appends;
    AppendNumbered(s, t, c, id, message);
    AppendGrows(s, t, c, id, message);
    AppendAlternating(s, t, c, id, message);
    AppendAnswering(s, t, c, id, message);
    AppendOwned(s, t, c, id, message);
    AdmitRequested(s, t, c, id, message);
  }

  lemma AdmissionKeepsInv(s: State, t: State, c: Id, id: Id, message: Message)
    requires Inv(s) && Appends(s, t, c, id, message) && !HasUnresolvedReply(s, c)
    requires Admitted(message.content.text, MAX_MESSAGE_TEXT) && message.content.author.Member? && message.request.Some?
    requires Request(c, message.request.value) !in s.byRequest
    requires t.byRequest == s.byRequest[Request(c, message.request.value) := id]
    requires message.digest == MessageDigest(s.conversations[c].owner, message.content.text)
    requires id !in s.claims && t.claims == s.claims[id := FreshClaim(c)] && t.works == s.works
    ensures Inv(t)
  {
    hide Numbered, Alternating, Answering, Owned, Requested, Claimed, Fixed, Delegated, Recorded, LogGrows, MessageDigest, Admitted, HasUnresolvedReply;
    NoPendingMeansEvenHead(s, c);
    AppendKeepsLog(s, t, c, id, message);
    AppendMemberClaimed(s, t, c, id, message);
    FixedStable(s, t);
    DelegatedStable(s, t);
    RecordedStable(s, t);
  }

  lemma SendKeepsInv(s: State, command: SendCommand, newConversation: Id, newMessage: Id)
    requires Inv(s)
    ensures Inv(Send(s, command, newConversation, newMessage).0)
  {
    hide Inv, Admit, EnsureConversation, Normalize, Admitted, ActiveMember;
    var text := Normalize(command.text, MAX_MESSAGE_TEXT);
    var key := Normalize(command.key, MAX_KEY);
    if text.Some? && key.Some? && (command.member in s.byOwner || newConversation !in s.conversations) {
      NormalizeIdempotent(command.text, MAX_MESSAGE_TEXT);
      EnsureKeepsInv(s, command.member, newConversation);
      AdmitKeepsInv(EnsureConversation(s, command.member, newConversation), command.member, text.value, key.value, newMessage);
    }
  }

  // ----- Claim and renew -----

  /** Only authority and lease of one uncommitted claim change. */
  ghost predicate Reassigns(s: State, t: State, source: Id) {
    && source in s.claims && source in t.claims
    && t == s.(claims := s.claims[source := t.claims[source]])
    && s.claims[source].committedReply.None?
    && t.claims[source].(machine := None, fence := 0, leaseExpiresAt := 0, contextStart := None, contextEnd := None)
       == s.claims[source].(machine := None, fence := 0, leaseExpiresAt := 0, contextStart := None, contextEnd := None)
  }

  lemma ReassignNumbered(s: State, t: State, source: Id)
    requires Numbered(s) && Reassigns(s, t, source)
    ensures Numbered(t) && LogGrows(s, t)
  {}

  lemma ReassignClaimed(s: State, t: State, source: Id)
    requires Numbered(s) && Numbered(t) && LogGrows(s, t) && Claimed(s) && Reassigns(s, t, source)
    requires var now := t.claims[source];
      && source in s.messages
      && now.machine.Some? && now.fence > 0 && now.contextStart.Some? && now.contextEnd == Some(Position(s, source))
    ensures Claimed(t)
  {
    hide Numbered, LogGrows;
    forall other {:trigger other in t.claims} | other in t.claims
      ensures other in t.messages && ClaimShape(t, other)
    {
      assert other in s.claims;
      if other != source {
        ShapeKept(s, t, other);
      }
    }
    forall other {:trigger other in t.claims} | other in t.messages && t.messages[other].slot.position % 2 == 1
      ensures other in t.claims
    {
      assert other in s.claims;
    }
  }

  lemma ReassignSimple(s: State, t: State, source: Id)
    requires Alternating(s) && Answering(s) && Owned(s) && Requested(s)
    requires Reassigns(s, t, source)
    ensures Alternating(t) && Answering(t) && Owned(t) && Requested(t)
  {
    forall id | id in t.messages ensures Indexed(t, id) {
      assert Indexed(s, id);
    }
  }

  lemma ReassignFixed(s: State, t: State, source: Id)
    requires Numbered(s) && Claimed(s) && Fixed(s) && Reassigns(s, t, source) && LogGrows(s, t) && source in s.messages
    requires t.claims[source].contextStart == Some(Position(s, source) + 1 - |ContextOf(s, source)|)
    ensures Fixed(t)
  {
    hide ContextOf;
    forall other | other in t.claims && other in t.messages && t.claims[other].contextStart.Some?
      ensures t.claims[other].contextStart.value == Position(t, other) + 1 - |ContextOf(t, other)|
    {
      ContextStable(s, t, other);
    }
  }

  lemma ReassignKeepsInv(s: State, t: State, source: Id)
    requires Inv(s) && Reassigns(s, t, source) && source in s.messages
    requires var now := t.claims[source];
      && now.machine.Some? && now.fence > 0
      && now.contextStart == Some(Position(s, source) + 1 - |ContextOf(s, source)|)
      && now.contextEnd == Some(Position(s, source))
    ensures Inv(t)
  {
    hide Numbered, Alternating, Answering, Owned, Requested, Claimed, Fixed, Delegated, Recorded, LogGrows, ContextOf;
    ReassignNumbered(s, t, source);
    ReassignClaimed(s, t, source);
    ReassignSimple(s, t, source);
    ReassignFixed(s, t, source);
    DelegatedStable(s, t);
    RecordedStable(s, t);
  }

  lemma ClaimKnown(s: State, source: Id)
    requires Numbered(s) && Claimed(s) && source in s.claims
    ensures source in s.messages && ClaimShape(s, source)
  {}

  lemma ClaimKeepsInv(s: State, command: ClaimCommand)
    requires Inv(s)
    ensures Inv(ClaimReply(s, command).0)
  {
    hide Numbered, Alternating, Answering, Owned, Requested, Claimed, Fixed, Delegated, Recorded, ContextRange, ContextOf, FixedSuffix, Rows;
    var t := ClaimReply(s, command).0;
    if t != s {
      var source := command.choice.value;
      ClaimKnown(s, source);
      RangeIsContext(s, source);
      ReassignKeepsInv(s, t, source);
    }
  }

  lemma RenewKeepsInv(s: State, command: RenewCommand)
    requires Inv(s)
    ensures Inv(Renew(s, command).0)
  {
    hide Numbered, Alternating, Answering, Owned, Requested, Claimed, Delegated, Recorded, ContextOf;
    var t := Renew(s, command).0;
    if t != s {
      ClaimKnown(s, command.source);
      ReassignKeepsInv(s, t, command.source);
    }
  }

  // ----- Commit -----

  /** The claim of the newest message is completed by the entry appended after it. */
  ghost predicate Completes(s: State, t: State, source: Id, id: Id, candidate: Candidate, work: Option<Id>) {
    && source in s.claims && source in s.messages
    && s.claims[source].committedReply.None? && s.claims[source].machine.Some?
    && t.claims == s.claims[source := s.claims[source].(outputDigest := OutputDigest(source, candidate),
                                                        committedReply := Some(id), createdWork := work)]
  }

  /** A commit that changes the store completes the newest message's claim. */
  lemma CommitCompletes(s: State, command: CommitCommand, newReply: Id, newWork: Id)
    requires Commit(s, command, newReply, newWork).0 != s
    ensures NormalizeCandidate(command.candidate).Ok?
    ensures command.source in s.claims && command.source in s.messages
    ensures var candidate := NormalizeCandidate(command.candidate).value;
      var t := Commit(s, command, newReply, newWork).0;
      var c := s.claims[command.source].conversation;
      var work := if candidate.goal.Some? then Some(newWork) else None;
      && c in s.conversations
      && Position(s, command.source) == s.conversations[c].head
      && Completes(s, t, command.source, newReply, candidate, work)
      && Appends(s, t, c, newReply, Message(Slot(c, s.conversations[c].head + 1), ContextMessage(Carry, candidate.reply),
                                            None, [], Some(command.source)))
      && (candidate.goal.Some? ==> newWork !in s.works)
      && t.works == (if candidate.goal.Some?
                     then s.works[newWork := Work(s.conversations[c].owner.space, s.conversations[c].owner.user, candidate.goal.value)]
                     else s.works)
      && t.byRequest == s.byRequest
  {
    hide OutputDigest, Normalize, NormalizeCandidate, ActiveMember;
  }

  lemma CompletedShape(s: State, t: State, source: Id, id: Id, message: Message, candidate: Candidate, work: Option<Id>)
    requires Numbered(s) && Numbered(t) && Completes(s, t, source, id, candidate, work) && ClaimShape(s, source)
    requires var c := s.claims[source].conversation;
      Appends(s, t, c, id, message) && Position(s, source) == s.conversations[c].head
    ensures source in t.messages && ClaimShape(t, source) && message.slot.position % 2 == 0
  {
    hide OutputDigest, Numbered;
    assert t.messages[source] == s.messages[source];
  }

  lemma CompleteClaimed(s: State, t: State, source: Id, id: Id, message: Message, candidate: Candidate, work: Option<Id>)
    requires Numbered(s) && Numbered(t) && LogGrows(s, t) && Claimed(s)
    requires Completes(s, t, source, id, candidate, work)
    requires var c := s.claims[source].conversation;
      Appends(s, t, c, id, message) && Position(s, source) == s.conversations[c].head
    ensures Claimed(t)
  {
    hide LogGrows, OutputDigest, Numbered;
    var c := s.claims[source].conversation;
    ClaimKnown(s, source);
    CompletedShape(s, t, source, id, message, candidate, work);
    forall other {:trigger other in t.claims} | other in t.claims
      ensures other in t.messages && ClaimShape(t, other)
    {
      if other != source {
        ClaimKnown(s, other);
        if s.claims[other].conversation == c {
          OnlyNewestPending(s, source, other);
        }
        hide ClaimShape;
        ShapeKept(s, t, other);
      }
    }
    forall other {:trigger other in t.claims} | other in t.messages && t.messages[other].slot.position % 2 == 1
      ensures other in t.claims
    {
      assert other != id ==> other in s.claims;
    }
  }

  /** Two pending claims of one Conversation would both be its newest message. */
  lemma OnlyNewestPending(s: State, a: Id, b: Id)
    requires Numbered(s) && Claimed(s) && a in s.claims && b in s.claims && a != b
    requires s.claims[a].conversation == s.claims[b].conversation
    ensures s.claims[a].committedReply.Some? || s.claims[b].committedReply.Some?
  {
    ClaimKnown(s, a);
    ClaimKnown(s, b);
    assert s.messages[a].slot in s.bySlot && s.messages[b].slot in s.bySlot;
  }

  lemma CompleteDelegated(s: State, t: State, source: Id, id: Id, message: Message, candidate: Candidate, work: Option<Id>)
    requires Delegated(s)
    requires Completes(s, t, source, id, candidate, work) && Appends(s, t, s.claims[source].conversation, id, message)
    requires work.Some? == candidate.goal.Some? && s.claims[source].createdWork.None?
    requires work.None? ==> t.works == s.works
    requires work.Some? ==>
      && work.value !in s.works
      && var owner := s.conversations[s.claims[source].conversation].owner;
         t.works == s.works[work.value := Work(owner.space, owner.user, candidate.goal.value)]
    ensures Delegated(t)
  {
    hide OutputDigest, OneClaimEach;
    forall w | w in t.works ensures Delegates(t, w) {
      if work == Some(w) {
        assert t.claims[source].createdWork == Some(w);
      } else {
        assert Delegates(s, w);
        var other :| other in s.claims && s.claims[other].createdWork == Some(w);
        assert other != source && t.claims[other].createdWork == Some(w);
      }
    }
    forall other | other in t.claims && t.claims[other].createdWork.Some? ensures OwnedWork(t, other) {
      if other != source {
        assert OwnedWork(s, other);
      }
    }
    CompleteOneClaimEach(s, t, source, id, candidate, work);
  }

  lemma CompleteOneClaimEach(s: State, t: State, source: Id, id: Id, candidate: Candidate, work: Option<Id>)
    requires OneClaimEach(s) && Completes(s, t, source, id, candidate, work)
    requires forall other :: other in s.claims && s.claims[other].createdWork.Some? ==> OwnedWork(s, other)
    requires work.Some? ==> work.value !in s.works
    ensures OneClaimEach(t)
  {
    hide OutputDigest;
  }

  lemma CompleteRecorded(s: State, t: State, source: Id, id: Id, message: Message, candidate: Candidate, work: Option<Id>)
    requires Recorded(s) && LogGrows(s, t)
    requires Completes(s, t, source, id, candidate, work) && Appends(s, t, s.claims[source].conversation, id, message)
    requires message.content.text == candidate.reply && work.Some? == candidate.goal.Some?
    requires work.None? ==> t.works == s.works
    requires work.Some? ==>
      work.value !in s.works && work.value in t.works && t.works == s.works[work.value := t.works[work.value]]
      && t.works[work.value].goal == candidate.goal.value
    ensures Recorded(t)
  {
    hide OutputDigest;
    forall other | other in t.claims && t.claims[other].committedReply.Some?
      ensures t.claims[other].committedReply.value in t.messages
      ensures t.claims[other].createdWork.Some? ==> t.claims[other].createdWork.value in t.works
      ensures t.claims[other].outputDigest == OutputDigest(other, RecordedCandidate(t, t.claims[other]))
    {
      if other == source {
        assert RecordedCandidate(t, t.claims[other]) == candidate;
      } else {
        assert RecordedCandidate(t, t.claims[other]) == RecordedCandidate(s, s.claims[other]);
      }
    }
  }

  lemma CommitKeepsInv(s: State, command: CommitCommand, newReply: Id, newWork: Id)
    requires Inv(s)
    ensures Inv(Commit(s, command, newReply, newWork).0)
  {
    hide Commit, NormalizeCandidate, OutputDigest, Numbered, Alternating, Answering, Owned, Requested, Claimed, Fixed,
      Delegated, Recorded, LogGrows, Admitted;
    var t := Commit(s, command, newReply, newWork).0;
    if t != s {
      CommitCompletes(s, command, newReply, newWork);
      var candidate := NormalizeCandidate(command.candidate).value;
      var c := s.claims[command.source].conversation;
      var message := t.messages[newReply];
      var work := if candidate.goal.Some? then Some(newWork) else None;
      ClaimKnown(s, command.source);
      SourceSlot(s, command.source);
      AppendKeepsLog(s, t, c, newReply, message);
      CompleteClaimed(s, t, command.source, newReply, message, candidate, work);
      FixedStable(s, t);
      CompleteDelegated(s, t, command.source, newReply, message, candidate, work);
      CompleteRecorded(s, t, command.source, newReply, message, candidate, work);
    }
  }

  lemma SourceSlot(s: State, id: Id)
    requires Numbered(s) && id in s.messages
    ensures s.messages[id].slot in s.bySlot && s.bySlot[s.messages[id].slot] == id
  {}
}
