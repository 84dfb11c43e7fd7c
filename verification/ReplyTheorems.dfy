/** The guarantees of the private reply protocol, over every run of it. */
module ReplyTheorems {
  import opened Wrappers
  import opened Ids
  import opened Text
  import opened Context
  import opened Reply
  import opened ReplyInvariant
  import opened ReplyRuns
  import opened ReplyHistory
  import opened HostGate
  import Digest

  /** A state some run of the protocol ends in. */
  ghost predicate Reachable(s: State) {
    exists machines, members, ops :: s == Run(Empty(machines, members), ops)
  }

  lemma ReachableInv(s: State)
    requires Reachable(s)
    ensures Inv(s)
  {
    hide Inv, Empty, Run;
    var machines, members, ops :| s == Run(Empty(machines, members), ops);
    EmptyInv(machines, members);
    InvOverRuns(Empty(machines, members), ops);
  }

  /** The reachable states are closed under every transaction, and start without any message. */
  lemma StepsAreReachable(s: State, op: Op, machines: map<Id, Machine>, members: map<Member, bool>)
    ensures Reachable(Empty(machines, members)) && (Reachable(s) ==> Reachable(Apply(s, op)))
  {
    hide Apply;
    assert Empty(machines, members) == Run(Empty(machines, members), []);
    if Reachable(s) {
      var m, n, ops :| s == Run(Empty(m, n), ops);
      assert (ops + [op])[..|ops|] == ops;
      assert Apply(s, op) == Run(Empty(m, n), ops + [op]);
    }
  }

  // ----- The log -----

  /**
    In every reachable state the log of a Conversation is numbered exactly
    1..head; odd entries are member messages and even entries are Carry's
    answers to the entry just before.
   */
  lemma LogShape(s: State, c: Id, position: nat)
    requires Reachable(s)
    ensures Slot(c, position) in s.bySlot <==> 1 <= position <= Head(s, c)
    ensures Slot(c, position) in s.bySlot ==>
      && s.bySlot[Slot(c, position)] in s.messages
      && var m := s.messages[s.bySlot[Slot(c, position)]];
         && m.slot == Slot(c, position)
         && m.content.author == (if position % 2 == 1 then Author.Member else Carry)
         && (position % 2 == 0 ==>
               Slot(c, position - 1) in s.bySlot && m.replyTo == Some(s.bySlot[Slot(c, position - 1)]))
  {
    hide Reachable, Numbered, Alternating, Answering, Owned, Requested, Claimed, Fixed, Delegated, Recorded;
    ReachableInv(s);
    Dense(s, c, position);
    if Slot(c, position) in s.bySlot {
      SlotMessage(s, Slot(c, position));
      SlotAuthor(s, Slot(c, position));
      if position % 2 == 0 { SlotAnswers(s, c, position); }
    }
  }

  lemma Dense(s: State, c: Id, position: nat)
    requires Numbered(s)
    ensures Slot(c, position) in s.bySlot <==> 1 <= position <= Head(s, c)
  {
    var slot := Slot(c, position);
    assert slot in s.bySlot <==> slot.conversation in s.conversations && 1 <= slot.position <= Head(s, slot.conversation);
  }

  lemma SlotAuthor(s: State, slot: Slot)
    requires Numbered(s) && Alternating(s) && slot in s.bySlot
    ensures s.bySlot[slot] in s.messages
    ensures s.messages[s.bySlot[slot]].content.author == (if slot.position % 2 == 1 then Author.Member else Carry)
  {
    hide Admitted;
    SlotMessage(s, slot);
  }

  lemma SlotAnswers(s: State, c: Id, position: nat)
    requires Numbered(s) && Answering(s) && Slot(c, position) in s.bySlot && position > 0 && position % 2 == 0
    ensures Slot(c, position - 1) in s.bySlot && s.bySlot[Slot(c, position)] in s.messages
    ensures s.messages[s.bySlot[Slot(c, position)]].replyTo == Some(s.bySlot[Slot(c, position - 1)])
  {
    hide Numbered;
    Dense(s, c, position);
    Dense(s, c, position - 1);
    SlotMessage(s, Slot(c, position));
    SlotMessage(s, Slot(c, position - 1));
  }

  ghost predicate Pending(s: State, c: Id, source: Id) {
    source in s.claims && s.claims[source].conversation == c && s.claims[source].committedReply.None?
  }

  /** The head is odd exactly when one reply is owed, and it is owed to the newest message. */
  lemma PendingIsOddHead(s: State, c: Id)
    requires Reachable(s)
    ensures Head(s, c) % 2 == 1 <==> exists source :: Pending(s, c, source)
    ensures forall source :: Pending(s, c, source) ==>
      Slot(c, Head(s, c)) in s.bySlot && source == s.bySlot[Slot(c, Head(s, c))]
  {
    ReachableInv(s);
    hide Alternating, Answering, Owned, Requested, Fixed, Delegated, Recorded;
    if Head(s, c) % 2 == 1 {
      OddHeadIsPending(s, c);
      assert Pending(s, c, s.bySlot[Slot(c, Head(s, c))]);
    }
    forall source | Pending(s, c, source)
      ensures Head(s, c) % 2 == 1 && Slot(c, Head(s, c)) in s.bySlot && source == s.bySlot[Slot(c, Head(s, c))]
    {
      ClaimKnown(s, source);
      SourceSlot(s, source);
    }
  }

  // ----- Grants -----

  /** An active Machine, and a claim of an active member of its Space that nobody holds. */
  predicate Grantable(s: State, command: ClaimCommand) {
    && ActiveMachineSpace(s, command.machine).Ok?
    && command.choice.Some?
    && Joined(s, command.choice.value, ActiveMachineSpace(s, command.machine).value)
    && Available(s.claims[command.choice.value], command.selectedAt)
    && Available(s.claims[command.choice.value], command.assignedAt)
  }

  lemma UngrantableRefused(s: State, command: ClaimCommand)
    requires ClaimReply(s, command).1.Ok?
    ensures Grantable(s, command)
  {
    hide FixedSuffix, ContextRange, Rows, Contents, Joined, ActiveMachineSpace, Assigned;
  }

  lemma GrantableGranted(s: State, command: ClaimCommand, range: (nat, nat), context: seq<ContextMessage>)
    requires Grantable(s, command) && ContextRange(s, command.choice.value) == Ok(range)
    requires context == Contents(Rows(s, s.claims[command.choice.value].conversation, range.0, range.1))
    requires FixedSuffix(context).Ok? && |FixedSuffix(context).value| == |context|
    ensures ClaimReply(s, command).1.Ok?
    ensures var grant := ClaimReply(s, command).1.value;
      && grant.messages == context && grant.source == command.choice.value
      && grant.fence == s.claims[grant.source].fence + 1
      && grant.source in ClaimReply(s, command).0.claims
      && ClaimReply(s, command).0.claims[grant.source].fence == grant.fence
      && ClaimReply(s, command).0.claims[grant.source].machine == Some(command.machine)
      && ClaimReply(s, command).0.claims[grant.source].leaseExpiresAt == grant.leaseExpiresAt == command.assignedAt + LEASE
  {
    hide FixedSuffix, ContextRange, Rows, Contents, ActiveMember, ActiveMachineSpace, Available;
  }

  /**
    Exactly the grantable claims are granted, under the next fence and with the
    source's own context. The context is never the reason a claim is refused.
   */
  lemma GrantIff(s: State, command: ClaimCommand)
    requires Inv(s)
    ensures ClaimReply(s, command).1.Ok? <==> Grantable(s, command)
    ensures ClaimReply(s, command).1.Ok? ==>
      var grant := ClaimReply(s, command).1.value;
      && Some(grant.source) == command.choice && grant.source in s.messages
      && grant.source in s.claims && grant.fence == s.claims[grant.source].fence + 1
      && grant.messages == ContextOf(s, grant.source)
      && grant.source in ClaimReply(s, command).0.claims
      && ClaimReply(s, command).0.claims[grant.source].fence == grant.fence
      && ClaimReply(s, command).0.claims[grant.source].machine == Some(command.machine)
      && ClaimReply(s, command).0.claims[grant.source].leaseExpiresAt == grant.leaseExpiresAt == command.assignedAt + LEASE
  {
    hide Inv, ClaimReply, FixedSuffix, ContextRange, Rows, Contents, ContextOf, ActiveMember, ActiveMachineSpace, Available;
    if ClaimReply(s, command).1.Ok? {
      UngrantableRefused(s, command);
    }
    if Grantable(s, command) {
      var source := command.choice.value;
      GrantedContext(s, source);
      GrantableGranted(s, command, ContextRange(s, source).value, ContextOf(s, source));
    }
  }

  /** The selected range reads back as the source's context, which is already bounded. */
  lemma GrantedContext(s: State, source: Id)
    requires Inv(s) && source in s.claims
    ensures source in s.messages && s.messages[source].slot.conversation == s.claims[source].conversation
    ensures ContextRange(s, source) == Ok((Position(s, source) + 1 - |ContextOf(s, source)|, Position(s, source)))
    ensures Contents(Rows(s, s.claims[source].conversation, Position(s, source) + 1 - |ContextOf(s, source)|,
                          Position(s, source))) == ContextOf(s, source)
    ensures FixedSuffix(ContextOf(s, source)) == Ok(ContextOf(s, source))
  {
    hide Numbered, Alternating, Fixed, Claimed, Recorded, Delegated, FixedSuffix, ContextRange, Rows, Contents, AllValid;
    ClaimKnown(s, source);
    RangeIsContext(s, source);
    ContextIsSuffix(s, source);
    LogIsValid(s, source);
    FixedSuffixIdempotent(LogUpTo(s, source));
  }

  lemma RowAuthors(s: State, c: Id, first: nat, last: nat)
    requires Numbered(s) && Alternating(s) && 1 <= first <= last + 1 && last <= Head(s, c)
    ensures |Rows(s, c, first, last)| == last + 1 - first
    ensures forall i :: 0 <= i < |Rows(s, c, first, last)| ==>
      Rows(s, c, first, last)[i].content.author == (if (first + i) % 2 == 1 then Author.Member else Carry)
  {
    RowsAreDense(s, c, first, last);
    hide Rows, Admitted;
    forall i | 0 <= i < last + 1 - first
      ensures Rows(s, c, first, last)[i].content.author == (if (first + i) % 2 == 1 then Author.Member else Carry)
    {
      SlotMessage(s, Slot(c, first + i));
    }
  }

  lemma SlotMessage(s: State, slot: Slot)
    requires Numbered(s) && slot in s.bySlot
    ensures s.bySlot[slot] in s.messages && s.messages[s.bySlot[slot]].slot == slot
  {}

  lemma ContextAuthors(s: State, source: Id)
    requires Numbered(s) && Alternating(s) && source in s.messages && Position(s, source) % 2 == 1
    ensures var context := ContextOf(s, source);
      && 0 < |context|
      && context[|context| - 1].author == Author.Member
      && forall i :: 1 <= i < |context| ==> context[i - 1].author != context[i].author
  {
    hide ContextOf, FixedSuffix, Rows, Alternating;
    ContextIsSuffix(s, source);
    var slot := s.messages[source].slot;
    SourceSlot(s, source);
    assert slot.position <= Head(s, slot.conversation);
    hide Numbered;
    var first := slot.position + 1 - |ContextOf(s, source)|;
    RowAuthors(s, slot.conversation, first, slot.position);
    hide Head;
  }

  /** Every claim the server can grant passes the Host's own gate. */
  lemma GrantsAreAcceptable(s: State, command: ClaimCommand)
    requires Reachable(s) && ClaimReply(s, command).1.Ok?
    ensures AcceptableGrant(ClaimReply(s, command).1.value)
  {
    hide ClaimReply, FixedSuffix, ContextOf, Reachable, Numbered, Alternating, Claimed, Fixed, Recorded, Delegated;
    ReachableInv(s);
    GrantIff(s, command);
    var source := command.choice.value;
    GrantedContext(s, source);
    ClaimKnown(s, source);
    ContextAuthors(s, source);
  }

  /**
    However many leases expire and whatever happens in between, every grant for
    one source carries the same context, and each grant a higher fence.
   */
  lemma GrantsAgree(s: State, first: ClaimCommand, between: seq<Op>, second: ClaimCommand)
    requires Reachable(s) && ClaimReply(s, first).1.Ok?
    requires var t := Run(ClaimReply(s, first).0, between);
      ClaimReply(t, second).1.Ok? && second.choice == first.choice
    ensures var t := Run(ClaimReply(s, first).0, between);
      && ClaimReply(t, second).1.value.messages == ClaimReply(s, first).1.value.messages
      && ClaimReply(t, second).1.value.fence > ClaimReply(s, first).1.value.fence
  {
    hide Reachable, ClaimReply, Inv, Run, ContextOf, Grantable, Numbered, LogGrows, Evolves;
    ReachableInv(s);
    var granted := ClaimReply(s, first).0;
    var t := Run(granted, between);
    ClaimKeepsInv(s, first);
    InvOverRuns(granted, between);
    ClaimEvolves(s, first);
    RunEvolves(granted, between);
    GrantIff(s, first);
    GrantIff(t, second);
    InvNumbered(s);
    var source := first.choice.value;
    FenceGrows(granted, t, source);
    EvolvesTransitive(s, granted, t);
    EvolvesGrows(s, t);
    ContextStable(s, t, source);
  }

  lemma FenceGrows(s: State, t: State, source: Id)
    requires Evolves(s, t) && source in s.claims
    ensures source in t.claims && ClaimAdvances(s.claims[source], t.claims[source])
  {}

  lemma EvolvesGrows(s: State, t: State)
    requires Evolves(s, t)
    ensures LogGrows(s, t)
  {}

  // ----- Commits -----

  /** A valid candidate from the current holder of a live lease, under fresh identities. */
  predicate Committable(s: State, command: CommitCommand, newReply: Id, newWork: Id) {
    && NormalizeCandidate(command.candidate).Ok?
    && ActiveMachineSpace(s, command.machine).Ok?
    && Joined(s, command.source, ActiveMachineSpace(s, command.machine).value)
    && Live(s.claims[command.source], command.machine, command.fence, command.checkedAt)
    && Live(s.claims[command.source], command.machine, command.fence, command.completedAt)
    && newReply !in s.messages
    && (NormalizeCandidate(command.candidate).value.goal.Some? ==> newWork !in s.works)
  }

  lemma UncommittableRefused(s: State, command: CommitCommand, newReply: Id, newWork: Id)
    requires Commit(s, command, newReply, newWork).0 != s
    ensures Committable(s, command, newReply, newWork)
  {
    hide NormalizeCandidate, OutputDigest, ActiveMember, ActiveMachineSpace;
  }

  lemma CommittableCommitted(s: State, command: CommitCommand, newReply: Id, newWork: Id)
    requires Committable(s, command, newReply, newWork) && command.fence > 0
    requires var c := s.claims[command.source].conversation;
      Position(s, command.source) == Head(s, c) && Slot(c, Head(s, c) + 1) !in s.bySlot
    ensures var work := if NormalizeCandidate(command.candidate).value.goal.Some? then Some(newWork) else None;
      Commit(s, command, newReply, newWork).1 == Ok(Committed(newReply, work))
    ensures newReply in Commit(s, command, newReply, newWork).0.messages
  {
    hide NormalizeCandidate, OutputDigest, ActiveMember, ActiveMachineSpace;
  }

  /**
    Exactly the committable candidates are committed. Since the source of a
    pending claim is its Conversation's head, neither head guard ever refuses one.
   */
  lemma CommitIff(s: State, command: CommitCommand, newReply: Id, newWork: Id)
    requires Inv(s)
    ensures Commit(s, command, newReply, newWork).0 != s <==> Committable(s, command, newReply, newWork)
    ensures Committable(s, command, newReply, newWork) ==>
      var work := if NormalizeCandidate(command.candidate).value.goal.Some? then Some(newWork) else None;
      Commit(s, command, newReply, newWork).1 == Ok(Committed(newReply, work))
  {
    hide Commit, NormalizeCandidate, Alternating, Answering, Owned, Requested, Fixed, Delegated, Recorded;
    if Commit(s, command, newReply, newWork).0 != s {
      UncommittableRefused(s, command, newReply, newWork);
    }
    if Committable(s, command, newReply, newWork) {
      ClaimKnown(s, command.source);
      hide Claimed;
      CommittableCommitted(s, command, newReply, newWork);
    }
  }

  /** What a first commit wrote: the reply after its source, and a Work for a goal. */
  lemma CommitRecords(s: State, command: CommitCommand, newReply: Id, newWork: Id)
    requires Inv(s) && Committable(s, command, newReply, newWork)
    ensures var t := Commit(s, command, newReply, newWork).0;
      var candidate := NormalizeCandidate(command.candidate).value;
      var slot := s.messages[command.source].slot;
      && newReply in t.messages
      && t.messages[newReply].slot == Slot(slot.conversation, slot.position + 1)
      && t.messages[newReply].content == ContextMessage(Carry, candidate.reply)
      && t.messages[newReply].replyTo == Some(command.source)
      && t.works.Keys == s.works.Keys + (if candidate.goal.Some? then {newWork} else {})
      && (candidate.goal.Some? ==> t.works[newWork].goal == candidate.goal.value)
      && command.source in t.claims
      && t.claims[command.source].committedReply == Some(newReply)
      && t.claims[command.source].machine == Some(command.machine)
      && t.claims[command.source].fence == command.fence
      && t.claims[command.source].outputDigest == OutputDigest(command.source, candidate)
  {
    hide Inv, Commit, NormalizeCandidate, OutputDigest, Numbered, Claimed;
    CommitIff(s, command, newReply, newWork);
    CommitCompletes(s, command, newReply, newWork);
    InvClaimed(s);
    ClaimKnown(s, command.source);
  }

  lemma InvClaimed(s: State)
    requires Inv(s)
    ensures Numbered(s) && Claimed(s)
  {}

  /** A fence that is no longer the claim's fence can neither write nor renew. */
  lemma StaleFenceRefused(s: State, source: Id, fence: int, commit: CommitCommand, newReply: Id, newWork: Id, renew: RenewCommand)
    requires source in s.claims && s.claims[source].fence != fence
    requires commit.source == source && commit.fence == fence && renew.source == source && renew.fence == fence
    ensures Commit(s, commit, newReply, newWork).0 == s && Commit(s, commit, newReply, newWork).1.Err?
    ensures Renew(s, renew).0 == s && Renew(s, renew).1.Err?
  {
    hide NormalizeCandidate, OutputDigest, ActiveMember, ActiveMachineSpace;
  }

  /** Exactly the holder of a live lease renews it, and gets the full lease from now; nothing else changes. */
  lemma RenewIff(s: State, command: RenewCommand)
    requires Inv(s)
    ensures Renew(s, command).1.Ok? <==>
      && ActiveMachineSpace(s, command.machine).Ok?
      && Joined(s, command.source, ActiveMachineSpace(s, command.machine).value)
      && Live(s.claims[command.source], command.machine, command.fence, command.lockedAt)
      && Live(s.claims[command.source], command.machine, command.fence, command.extendedAt)
    ensures Renew(s, command).1.Ok? ==>
      && Renew(s, command).1.value == command.extendedAt + LEASE
      && Live(Renew(s, command).0.claims[command.source], command.machine, command.fence, command.extendedAt)
      && Renew(s, command).0 == s.(claims := Renew(s, command).0.claims)
      && forall other :: other in s.claims && other != command.source ==>
           Renew(s, command).0.claims[other] == s.claims[other]
  {
    hide Inv, ActiveMember, ActiveMachineSpace, Numbered, Claimed;
    InvClaimed(s);
    if command.source in s.claims && Current(s.claims[command.source], command.machine, command.fence) {
      HeldFencePositive(s, command.source, command.machine, command.fence);
    }
  }

  lemma HeldFencePositive(s: State, source: Id, machine: Id, fence: int)
    requires Numbered(s) && Claimed(s) && source in s.claims && Current(s.claims[source], machine, fence)
    ensures fence > 0
  {
    ClaimKnown(s, source);
  }

  /** The claim is committed, or still under this fence with a lease until `until`. */
  ghost predicate Held(s: State, source: Id, fence: nat, until: int) {
    && source in s.claims
    && (s.claims[source].committedReply.None? ==>
          && s.claims[source].machine.Some? && s.claims[source].fence == fence
          && until <= s.claims[source].leaseExpiresAt)
  }

  /** Renewals extend from `from` or later, and claims select before `until`. */
  predicate Timely(op: Op, from: int, until: int) {
    && (op.OpRenew? ==> from <= op.renew.extendedAt)
    && (op.OpClaim? ==> op.claim.selectedAt < until)
  }

  lemma SendKeepsClaims(s: State, command: SendCommand, newConversation: Id, newMessage: Id, source: Id)
    requires source in s.claims
    ensures var t := Send(s, command, newConversation, newMessage).0;
      source in t.claims && t.claims[source] == s.claims[source]
  {
    hide Normalize, Admit, ActiveMember, EnsureConversation;
    if Normalize(command.text, MAX_MESSAGE_TEXT).Some? && Normalize(command.key, MAX_KEY).Some? {
      var text, key := Normalize(command.text, MAX_MESSAGE_TEXT).value, Normalize(command.key, MAX_KEY).value;
      AdmitKeepsClaims(s, command.member, newConversation, text, key, newMessage, source);
    }
  }

  lemma AdmitKeepsClaims(s: State, member: Member, newConversation: Id, text: Bytes, key: Bytes, newMessage: Id, source: Id)
    requires source in s.claims
    ensures var t := Admit(EnsureConversation(s, member, newConversation), member, text, key, newMessage).0;
      source in t.claims && t.claims[source] == s.claims[source]
  {
    hide Admit, Appends, MessageDigest, HasUnresolvedReply;
    var ensured := EnsureConversation(s, member, newConversation);
    if Admit(ensured, member, text, key, newMessage).0 != ensured {
      AdmitAppends(ensured, member, text, key, newMessage);
    }
  }

  lemma ClaimKeepsHeld(s: State, command: ClaimCommand, source: Id, fence: nat, until: int)
    requires Held(s, source, fence, until) && command.selectedAt < until
    ensures Held(ClaimReply(s, command).0, source, fence, until)
    ensures ClaimReply(s, command).1.Ok? ==> ClaimReply(s, command).1.value.source != source
  {
    hide FixedSuffix, ContextRange, Rows, Contents, ActiveMember, ActiveMachineSpace;
  }

  lemma RenewKeepsHeld(s: State, command: RenewCommand, source: Id, fence: nat, from: int)
    requires Held(s, source, fence, from + LEASE) && from <= command.extendedAt
    ensures Held(Renew(s, command).0, source, fence, from + LEASE)
  {
    hide ActiveMember, ActiveMachineSpace;
  }

  lemma CommitKeepsHeld(s: State, command: CommitCommand, newReply: Id, newWork: Id, source: Id, fence: nat, until: int)
    requires Held(s, source, fence, until)
    ensures Held(Commit(s, command, newReply, newWork).0, source, fence, until)
  {
    hide NormalizeCandidate, OutputDigest, ActiveMember, ActiveMachineSpace;
  }

  lemma StepKeepsHeld(s: State, op: Op, source: Id, fence: nat, from: int)
    requires Held(s, source, fence, from + LEASE) && Timely(op, from, from + LEASE)
    ensures Held(Apply(s, op), source, fence, from + LEASE)
  {
    hide Send, ClaimReply, Renew, Commit;
    match op
    case OpSend(send, newConversation, newMessage) => SendKeepsClaims(s, send, newConversation, newMessage, source);
    case OpClaim(claim) => ClaimKeepsHeld(s, claim, source, fence, from + LEASE);
    case OpRenew(renew) => RenewKeepsHeld(s, renew, source, fence, from);
    case OpCommit(commit, newReply, newWork) => CommitKeepsHeld(s, commit, newReply, newWork, source, fence, from + LEASE);
    case OpEnvironment(machines, members) =>
  }

  lemma {:induction false} RunKeepsHeld(s: State, ops: seq<Op>, source: Id, fence: nat, from: int)
    requires Held(s, source, fence, from + LEASE)
    requires forall i :: 0 <= i < |ops| ==> Timely(ops[i], from, from + LEASE)
    ensures Held(Run(s, ops), source, fence, from + LEASE)
    decreases |ops|
  {
    hide Held, Apply, Timely;
    if ops != [] {
      RunKeepsHeld(s, ops[..|ops| - 1], source, fence, from);
      StepKeepsHeld(Run(s, ops[..|ops| - 1]), ops[|ops| - 1], source, fence, from);
    }
  }

  /**
    A grant or renewal at `now` keeps everyone else away from the source for a
    whole lease: whatever ran in between, on a clock that does not go back before
    `now`, no claim that selects before `now + LEASE` is granted that source.
   */
  lemma LeaseProtects(s: State, first: ClaimCommand, renew: RenewCommand, ops: seq<Op>, command: ClaimCommand, now: int)
    requires forall i :: 0 <= i < |ops| ==> Timely(ops[i], now, now + LEASE)
    requires command.selectedAt < now + LEASE
    ensures Renew(s, renew).1.Ok? && renew.extendedAt == now ==>
      var r := ClaimReply(Run(Renew(s, renew).0, ops), command).1;
      r.Ok? ==> r.value.source != renew.source
    ensures ClaimReply(s, first).1.Ok? && first.assignedAt == now ==>
      var r := ClaimReply(Run(ClaimReply(s, first).0, ops), command).1;
      r.Ok? ==> r.value.source != ClaimReply(s, first).1.value.source
  {
    hide Run, ClaimReply, Renew, Held, Timely;
    if Renew(s, renew).1.Ok? && renew.extendedAt == now {
      RenewedIsHeld(s, renew);
      RunKeepsHeld(Renew(s, renew).0, ops, renew.source, Renew(s, renew).0.claims[renew.source].fence, now);
      ClaimKeepsHeld(Run(Renew(s, renew).0, ops), command, renew.source, Renew(s, renew).0.claims[renew.source].fence,
                     now + LEASE);
    }
    if ClaimReply(s, first).1.Ok? && first.assignedAt == now {
      var source := ClaimReply(s, first).1.value.source;
      GrantedIsHeld(s, first);
      RunKeepsHeld(ClaimReply(s, first).0, ops, source, ClaimReply(s, first).0.claims[source].fence, now);
      ClaimKeepsHeld(Run(ClaimReply(s, first).0, ops), command, source, ClaimReply(s, first).0.claims[source].fence,
                     now + LEASE);
    }
  }

  lemma RenewedIsHeld(s: State, command: RenewCommand)
    requires Renew(s, command).1.Ok?
    ensures command.source in Renew(s, command).0.claims
    ensures Held(Renew(s, command).0, command.source, Renew(s, command).0.claims[command.source].fence,
                 command.extendedAt + LEASE)
  {
    hide ActiveMember, ActiveMachineSpace;
  }

  lemma GrantedIsHeld(s: State, command: ClaimCommand)
    requires ClaimReply(s, command).1.Ok?
    ensures var source := ClaimReply(s, command).1.value.source;
      && source in ClaimReply(s, command).0.claims
      && Held(ClaimReply(s, command).0, source, ClaimReply(s, command).0.claims[source].fence, command.assignedAt + LEASE)
  {
    hide FixedSuffix, ContextRange, Rows, Contents, ActiveMember, ActiveMachineSpace;
  }

  /** Once a source was granted again, the earlier holder can never write for it. */
  lemma SupersededNeverWrites(s: State, first: ClaimCommand, between: seq<Op>, second: ClaimCommand, after: seq<Op>,
                              commit: CommitCommand, newReply: Id, newWork: Id, renew: RenewCommand)
    requires Reachable(s) && ClaimReply(s, first).1.Ok? && second.choice == first.choice
    requires ClaimReply(Run(ClaimReply(s, first).0, between), second).1.Ok?
    requires Some(commit.source) == first.choice && commit.fence == ClaimReply(s, first).1.value.fence
    requires renew.source == commit.source && renew.fence == commit.fence
    ensures var u := Run(ClaimReply(Run(ClaimReply(s, first).0, between), second).0, after);
      && Commit(u, commit, newReply, newWork).0 == u && Commit(u, commit, newReply, newWork).1.Err?
      && Renew(u, renew).0 == u && Renew(u, renew).1.Err?
  {
    hide Reachable, ClaimReply, Inv, Run, ContextOf, Grantable, Evolves, Commit, Renew;
    var t := Run(ClaimReply(s, first).0, between);
    var regranted := ClaimReply(t, second).0;
    var u := Run(regranted, after);
    GrantsAgree(s, first, between, second);
    ReachableInv(s);
    ClaimKeepsInv(s, first);
    InvOverRuns(ClaimReply(s, first).0, between);
    GrantIff(s, first);
    GrantIff(t, second);
    ClaimKeepsInv(t, second);
    RunEvolves(regranted, after);
    FenceGrows(regranted, u, commit.source);
    StaleFenceRefused(u, commit.source, commit.fence, commit, newReply, newWork, renew);
  }

  // ----- Replay -----

  /** Different candidates for one source never share a digest. */
  lemma OutputDigestInjective(source: Id, a: Candidate, b: Candidate)
    requires |a.reply| < Digest.WORD && |b.reply| < Digest.WORD
    requires a.goal.Some? ==> |a.goal.value| < Digest.WORD
    requires b.goal.Some? ==> |b.goal.value| < Digest.WORD
    ensures OutputDigest(source, a) == OutputDigest(source, b) <==> a == b
  {
    var fieldsA, fieldsB := CandidateFields(source, a), CandidateFields(source, b);
    assert Digest.Representable(fieldsA) && Digest.Representable(fieldsB);
    if OutputDigest(source, a) == OutputDigest(source, b) {
      hide Digest.Preimage;
      Digest.PreimageInjective(fieldsA, fieldsB);
      assert fieldsA[1] == fieldsB[1] && |fieldsA| == |fieldsB|;
      if a.goal.Some? {
        assert fieldsA[3] == fieldsB[3];
      }
    }
  }

  lemma NormalizedCandidateFits(candidate: Candidate)
    requires NormalizeCandidate(candidate).Ok?
    ensures var normalized := NormalizeCandidate(candidate).value;
      |normalized.reply| < Digest.WORD && (normalized.goal.Some? ==> |normalized.goal.value| < Digest.WORD)
  {
    hide NormalizeCandidate, ValidText;
  }

  /**
    After a commit, the winner's replay returns the original result and any other
    output conflicts, however much later it arrives; neither changes the store.
   */
  lemma CommitReplay(s: State, command: CommitCommand, newReply: Id, newWork: Id, between: seq<Op>,
                     replay: CommitCommand, otherReply: Id, otherWork: Id)
    requires Reachable(s) && Committable(s, command, newReply, newWork)
    requires replay.machine == command.machine && replay.source == command.source && replay.fence == command.fence
    requires NormalizeCandidate(replay.candidate).Ok?
    requires var t := Run(Commit(s, command, newReply, newWork).0, between);
      ActiveMachineSpace(t, replay.machine).Ok? && Joined(t, replay.source, ActiveMachineSpace(t, replay.machine).value)
    ensures var t := Run(Commit(s, command, newReply, newWork).0, between);
      Commit(t, replay, otherReply, otherWork) ==
        if NormalizeCandidate(replay.candidate) == NormalizeCandidate(command.candidate)
        then (t, Commit(s, command, newReply, newWork).1)
        else (t, Err(ReplyConflict))
  {
    hide Reachable, Commit, Inv, Run, NormalizeCandidate, OutputDigest, Joined, ActiveMachineSpace, Evolves, Committable;
    ReachableInv(s);
    var committed := Commit(s, command, newReply, newWork).0;
    var t := Run(committed, between);
    CommitKeepsInv(s, command, newReply, newWork);
    RunEvolves(committed, between);
    CommitIff(s, command, newReply, newWork);
    CommitRecords(s, command, newReply, newWork);
    CommittedWork(s, command, newReply, newWork);
    FenceGrows(committed, t, command.source);
    NormalizedCandidateFits(command.candidate);
    NormalizedCandidateFits(replay.candidate);
    OutputDigestInjective(command.source, NormalizeCandidate(command.candidate).value, NormalizeCandidate(replay.candidate).value);
    InvClaimed(s);
    CurrentFencePositive(s, command);
    ReplayOutcome(t, replay, otherReply, otherWork);
  }

  lemma CurrentFencePositive(s: State, command: CommitCommand)
    requires Numbered(s) && Claimed(s) && command.source in s.claims
    requires Current(s.claims[command.source], command.machine, command.fence)
    ensures command.fence > 0
  {
    HeldFencePositive(s, command.source, command.machine, command.fence);
  }

  lemma CommittedWork(s: State, command: CommitCommand, newReply: Id, newWork: Id)
    requires Inv(s) && Committable(s, command, newReply, newWork)
    ensures command.source in s.claims && Current(s.claims[command.source], command.machine, command.fence)
    ensures NormalizeCandidate(command.candidate).Ok?
    ensures command.source in Commit(s, command, newReply, newWork).0.claims
    ensures Commit(s, command, newReply, newWork).0.claims[command.source].createdWork ==
      if NormalizeCandidate(command.candidate).value.goal.Some? then Some(newWork) else None
  {
    hide Inv, Commit, NormalizeCandidate, OutputDigest;
    CommitIff(s, command, newReply, newWork);
    CommitCompletes(s, command, newReply, newWork);
  }

  lemma ReplayOutcome(t: State, replay: CommitCommand, otherReply: Id, otherWork: Id)
    requires replay.fence > 0 && NormalizeCandidate(replay.candidate).Ok?
    requires ActiveMachineSpace(t, replay.machine).Ok? && Joined(t, replay.source, ActiveMachineSpace(t, replay.machine).value)
    requires Current(t.claims[replay.source], replay.machine, replay.fence)
    requires t.claims[replay.source].committedReply.Some?
    ensures Commit(t, replay, otherReply, otherWork) ==
      if t.claims[replay.source].outputDigest == OutputDigest(replay.source, NormalizeCandidate(replay.candidate).value)
      then (t, Ok(Committed(t.claims[replay.source].committedReply.value, t.claims[replay.source].createdWork)))
      else (t, Err(ReplyConflict))
  {
    hide NormalizeCandidate, OutputDigest, ActiveMember, ActiveMachineSpace;
  }

  /** Delegated Works and committed claims with a goal correspond one to one. */
  lemma OneWorkPerGoal(s: State)
    requires Reachable(s)
    ensures s.works.Keys == (set source | source in s.claims && s.claims[source].createdWork.Some? :: s.claims[source].createdWork.value)
    ensures forall a, b ::
      (a in s.claims && b in s.claims && s.claims[a].createdWork.Some?
       && s.claims[a].createdWork == s.claims[b].createdWork) ==> a == b
    ensures forall source :: source in s.claims && s.claims[source].createdWork.Some? ==>
      s.claims[source].committedReply.Some?
  {
    hide Reachable, Inv, OneClaimEach;
    ReachableInv(s);
    DelegationsAreCommitted(s);
    DelegationsAreWorks(s);
  }

  lemma DelegationsAreCommitted(s: State)
    requires Inv(s)
    ensures forall source :: source in s.claims && s.claims[source].createdWork.Some? ==>
      s.claims[source].committedReply.Some?
  {
    hide Alternating, Answering, Owned, Requested, Fixed, Recorded, Delegated;
    forall source | source in s.claims && s.claims[source].createdWork.Some?
      ensures s.claims[source].committedReply.Some?
    {
      ClaimKnown(s, source);
    }
  }

  lemma DelegationsAreWorks(s: State)
    requires Inv(s)
    ensures s.works.Keys == (set source | source in s.claims && s.claims[source].createdWork.Some? :: s.claims[source].createdWork.value)
    ensures forall a, b ::
      (a in s.claims && b in s.claims && s.claims[a].createdWork.Some?
       && s.claims[a].createdWork == s.claims[b].createdWork) ==> a == b
  {
    hide Alternating, Answering, Owned, Requested, Fixed, Recorded, Numbered, Claimed;
    forall work | work in s.works
      ensures exists source :: source in s.claims && s.claims[source].createdWork == Some(work)
    {
      assert Delegates(s, work);
    }
    forall source | source in s.claims && s.claims[source].createdWork.Some?
      ensures s.claims[source].createdWork.value in s.works
    {
      assert OwnedWork(s, source);
    }
  }

  // ----- Idempotent sending -----

  /** What an admission leaves behind: its request key names the stored message and its digest. */
  lemma AdmittedIsIndexed(s: State, member: Member, text: Bytes, key: Bytes, newMessage: Id)
    requires Admit(s, member, text, key, newMessage).1.Ok?
    ensures var t := Admit(s, member, text, key, newMessage).0;
      var sent := Admit(s, member, text, key, newMessage).1.value;
      && member in t.byOwner && t.byOwner[member] in t.conversations
      && var request := Request(t.byOwner[member], key);
         && request in t.byRequest && t.byRequest[request] == sent.id
         && sent.id in t.messages && t.messages[sent.id] == sent.message
         && sent.message.digest == MessageDigest(member, text)
  {
    hide MessageDigest, HasUnresolvedReply;
  }

  /** After a send succeeded, its request key names the stored message and its digest. */
  lemma SentIsIndexed(s: State, command: SendCommand, newConversation: Id, newMessage: Id)
    requires Send(s, command, newConversation, newMessage).1.Ok?
    ensures Normalize(command.text, MAX_MESSAGE_TEXT).Some? && Normalize(command.key, MAX_KEY).Some?
    ensures var t := Send(s, command, newConversation, newMessage).0;
      var sent := Send(s, command, newConversation, newMessage).1.value;
      && command.member in t.byOwner && t.byOwner[command.member] in t.conversations
      && var request := Request(t.byOwner[command.member], Normalize(command.key, MAX_KEY).value);
         && request in t.byRequest && t.byRequest[request] == sent.id
         && sent.id in t.messages && t.messages[sent.id] == sent.message
         && sent.message.digest == MessageDigest(command.member, Normalize(command.text, MAX_MESSAGE_TEXT).value)
  {
    hide Normalize, MessageDigest, HasUnresolvedReply, ActiveMember, Admit, EnsureConversation;
    var text, key := Normalize(command.text, MAX_MESSAGE_TEXT), Normalize(command.key, MAX_KEY);
    AdmittedIsIndexed(EnsureConversation(s, command.member, newConversation), command.member, text.value, key.value, newMessage);
  }

  lemma MessageDigestInjective(member: Member, a: Bytes, b: Bytes)
    requires |a| < Digest.WORD && |b| < Digest.WORD
    ensures MessageDigest(member, a) == MessageDigest(member, b) <==> a == b
  {
    var fieldsA, fieldsB := [member.space.text, member.user.text, a], [member.space.text, member.user.text, b];
    assert Digest.Representable(fieldsA) && Digest.Representable(fieldsB);
    if MessageDigest(member, a) == MessageDigest(member, b) {
      hide Digest.Preimage;
      Digest.PreimageInjective(fieldsA, fieldsB);
      assert fieldsA[2] == fieldsB[2];
    }
  }

  lemma ReplayedSend(t: State, command: SendCommand, newConversation: Id, newMessage: Id, sent: Sent)
    requires Normalize(command.text, MAX_MESSAGE_TEXT).Some? && Normalize(command.key, MAX_KEY).Some?
    requires ActiveMember(t, command.member) && command.member in t.byOwner
    requires t.byOwner[command.member] in t.conversations
    requires var request := Request(t.byOwner[command.member], Normalize(command.key, MAX_KEY).value);
      && request in t.byRequest && t.byRequest[request] == sent.id
      && sent.id in t.messages && t.messages[sent.id] == sent.message
    ensures Send(t, command, newConversation, newMessage) ==
      if sent.message.digest == MessageDigest(command.member, Normalize(command.text, MAX_MESSAGE_TEXT).value)
      then (t, Ok(sent)) else (t, Err(IdempotencyConflict))
  {
    hide Normalize, MessageDigest, HasUnresolvedReply, ActiveMember;
  }

  /**
    A repeated send under the same key returns the original message when its text
    is the same and conflicts otherwise, at any later time; it never sends twice.
   */
  lemma SendReplay(s: State, command: SendCommand, newConversation: Id, newMessage: Id, between: seq<Op>,
                   replay: SendCommand, otherConversation: Id, otherMessage: Id)
    requires Reachable(s) && Send(s, command, newConversation, newMessage).1.Ok?
    requires replay.member == command.member && Normalize(replay.key, MAX_KEY) == Normalize(command.key, MAX_KEY)
    requires Normalize(replay.text, MAX_MESSAGE_TEXT).Some?
    requires ActiveMember(Run(Send(s, command, newConversation, newMessage).0, between), replay.member)
    ensures var t := Run(Send(s, command, newConversation, newMessage).0, between);
      Send(t, replay, otherConversation, otherMessage) ==
        if Normalize(replay.text, MAX_MESSAGE_TEXT) == Normalize(command.text, MAX_MESSAGE_TEXT)
        then (t, Send(s, command, newConversation, newMessage).1)
        else (t, Err(IdempotencyConflict))
  {
    hide Reachable, Inv, Run, Send, Normalize, MessageDigest, ActiveMember, Evolves, ValidText;
    ReachableInv(s);
    var sentState := Send(s, command, newConversation, newMessage).0;
    var t := Run(sentState, between);
    SendKeepsInv(s, command, newConversation, newMessage);
    RunEvolves(sentState, between);
    SentIsIndexed(s, command, newConversation, newMessage);
    var sent := Send(s, command, newConversation, newMessage).1.value;
    IndexSurvives(sentState, t, command.member, Normalize(command.key, MAX_KEY).value, sent);
    ReplayedSend(t, replay, otherConversation, otherMessage, sent);
    NormalizeIdempotent(command.text, MAX_MESSAGE_TEXT);
    NormalizeIdempotent(replay.text, MAX_MESSAGE_TEXT);
    MessageDigestInjective(command.member, Normalize(command.text, MAX_MESSAGE_TEXT).value,
                           Normalize(replay.text, MAX_MESSAGE_TEXT).value);
  }

  lemma IndexSurvives(s: State, t: State, member: Member, key: Bytes, sent: Sent)
    requires Evolves(s, t) && member in s.byOwner && s.byOwner[member] in s.conversations
    requires var request := Request(s.byOwner[member], key);
      && request in s.byRequest && s.byRequest[request] == sent.id
      && sent.id in s.messages && s.messages[sent.id] == sent.message
    ensures member in t.byOwner && t.byOwner[member] in t.conversations
    ensures var request := Request(t.byOwner[member], key);
      && request in t.byRequest && t.byRequest[request] == sent.id
      && sent.id in t.messages && t.messages[sent.id] == sent.message
  {}
}
