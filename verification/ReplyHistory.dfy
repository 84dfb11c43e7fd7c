/** The reply invariant over whole runs, and what a run never takes back. */
module ReplyHistory {
  import opened Wrappers
  import opened Ids
  import opened Text
  import opened Context
  import opened Reply
  import opened ReplyInvariant
  import opened ReplyRuns

  // ----- Runs -----

  lemma EmptyInv(machines: map<Id, Machine>, members: map<Member, bool>)
    ensures Inv(Empty(machines, members))
  {}

  lemma StepKeepsInv(s: State, op: Op)
    requires Inv(s)
    ensures Inv(Apply(s, op))
  {
    hide Inv, Send, ClaimReply, Renew, Commit;
    match op
    case OpSend(send, newConversation, newMessage) => SendKeepsInv(s, send, newConversation, newMessage);
    case OpClaim(claim) => ClaimKeepsInv(s, claim);
    case OpRenew(renew) => RenewKeepsInv(s, renew);
    case OpCommit(commit, newReply, newWork) => CommitKeepsInv(s, commit, newReply, newWork);
    case OpEnvironment(machines, members) => EnvironmentKeepsInv(s, machines, members);
  }

  lemma EnvironmentKeepsInv(s: State, machines: map<Id, Machine>, members: map<Member, bool>)
    requires Inv(s)
    ensures Inv(s.(machines := machines, members := members))
  {
    hide Numbered, Alternating, Answering, Owned, Requested, Claimed, Fixed, Delegated, Recorded, LogGrows;
    var t := s.(machines := machines, members := members);
    EnvironmentSimple(s, t);
    FixedStable(s, t);
    DelegatedStable(s, t);
    RecordedStable(s, t);
  }

  lemma EnvironmentSimple(s: State, t: State)
    requires Numbered(s) && Alternating(s) && Answering(s) && Owned(s) && Requested(s) && Claimed(s)
    requires t == s.(machines := t.machines, members := t.members)
    ensures Numbered(t) && LogGrows(s, t) && Alternating(t) && Answering(t) && Owned(t) && Requested(t) && Claimed(t)
  {
    EnvironmentNumbered(s, t);
    EnvironmentClaimed(s, t);
    EnvironmentRequested(s, t);
    hide Numbered, LogGrows, Claimed, Requested, Admitted;
  }

  lemma EnvironmentNumbered(s: State, t: State)
    requires Numbered(s) && t == s.(machines := t.machines, members := t.members)
    ensures Numbered(t) && LogGrows(s, t)
  {}

  lemma EnvironmentClaimed(s: State, t: State)
    requires Numbered(s) && Numbered(t) && LogGrows(s, t) && Claimed(s)
    requires t == s.(machines := t.machines, members := t.members)
    ensures Claimed(t)
  {
    hide Numbered, LogGrows;
    forall source {:trigger source in t.claims} | source in t.claims
      ensures source in t.messages && ClaimShape(t, source)
    {
      assert source in s.claims;
      ShapeKept(s, t, source);
    }
    forall other {:trigger other in t.claims} | other in t.messages && t.messages[other].slot.position % 2 == 1
      ensures other in t.claims
    {
      assert other in s.claims;
    }
  }

  lemma EnvironmentRequested(s: State, t: State)
    requires Requested(s) && t == s.(machines := t.machines, members := t.members)
    ensures Requested(t)
  {
    hide MessageDigest;
    forall id | id in t.messages ensures Indexed(t, id) {
      assert Indexed(s, id);
    }
  }

  lemma {:induction false} InvOverRuns(s: State, ops: seq<Op>)
    requires Inv(s)
    ensures Inv(Run(s, ops))
    decreases |ops|
  {
    hide Inv, Apply;
    if ops != [] {
      InvOverRuns(s, ops[..|ops| - 1]);
      StepKeepsInv(Run(s, ops[..|ops| - 1]), ops[|ops| - 1]);
    }
  }

  // ----- What a run never takes back -----

  /** A claim only moves forward: fences grow, and a committed claim is final. */
  ghost predicate ClaimAdvances(before: Claim, after: Claim) {
    && before.conversation == after.conversation
    && before.fence <= after.fence
    && (before.fence == after.fence ==> before.machine == after.machine)
    && (before.committedReply.Some? ==> after == before)
  }

  ghost predicate Evolves(s: State, t: State) {
    && LogGrows(s, t)
    && (forall owner :: owner in s.byOwner ==> owner in t.byOwner && t.byOwner[owner] == s.byOwner[owner])
    && (forall r :: r in s.byRequest ==> r in t.byRequest && t.byRequest[r] == s.byRequest[r])
    && (forall c :: c in s.conversations ==>
          c in t.conversations && t.conversations[c].owner == s.conversations[c].owner
          && s.conversations[c].head <= t.conversations[c].head)
    && (forall work :: work in s.works ==> work in t.works && t.works[work] == s.works[work])
    && (forall source :: source in s.claims ==>
          source in t.claims && ClaimAdvances(s.claims[source], t.claims[source]))
  }

  lemma EvolvesTransitive(s: State, t: State, u: State)
    requires Evolves(s, t) && Evolves(t, u)
    ensures Evolves(s, u)
  {
    LogGrowsTransitive(s, t, u);
    hide LogGrows;
    forall source | source in s.claims
      ensures source in u.claims && ClaimAdvances(s.claims[source], u.claims[source])
    {
      assert ClaimAdvances(s.claims[source], t.claims[source]);
    }
  }

  lemma LogGrowsTransitive(s: State, t: State, u: State)
    requires LogGrows(s, t) && LogGrows(t, u)
    ensures LogGrows(s, u)
  {}

  lemma OneClaimEvolves(s: State, source: Id, claim: Claim)
    requires source in s.claims && ClaimAdvances(s.claims[source], claim)
    ensures Evolves(s, s.(claims := s.claims[source := claim]))
  {}

  lemma AppendEvolves(s: State, t: State, c: Id, id: Id, message: Message)
    requires Appends(s, t, c, id, message) && message.slot !in s.bySlot
    requires forall r :: r in s.byRequest ==> r in t.byRequest && t.byRequest[r] == s.byRequest[r]
    requires forall work :: work in s.works ==> work in t.works && t.works[work] == s.works[work]
    requires forall source :: source in s.claims ==>
      source in t.claims && ClaimAdvances(s.claims[source], t.claims[source])
    ensures Evolves(s, t)
  {}

  lemma EnsureEvolves(s: State, owner: Member, newConversation: Id)
    requires owner in s.byOwner || newConversation !in s.conversations
    ensures Evolves(s, EnsureConversation(s, owner, newConversation))
  {
    hide Evolves;
    EnvironmentEvolves(s, s.machines, s.members);
    if owner !in s.byOwner {
      NewConversationEvolves(s, newConversation, Conversation(owner, 0));
    }
  }

  lemma NewConversationEvolves(s: State, c: Id, row: Conversation)
    requires c !in s.conversations && row.owner !in s.byOwner
    ensures Evolves(s, s.(conversations := s.conversations[c := row], byOwner := s.byOwner[row.owner := c]))
  {}

  lemma AdmitEvolves(s: State, owner: Member, text: Bytes, key: Bytes, newMessage: Id)
    requires Numbered(s)
    ensures Evolves(s, Admit(s, owner, text, key, newMessage).0)
  {
    hide Admit, MessageDigest, HasUnresolvedReply, Evolves;
    var t := Admit(s, owner, text, key, newMessage).0;
    if t != s {
      AdmitAppends(s, owner, text, key, newMessage);
      AppendEvolves(s, t, s.byOwner[owner], newMessage, t.messages[newMessage]);
    } else {
      EnvironmentEvolves(s, s.machines, s.members);
    }
  }

  lemma SendEvolves(s: State, command: SendCommand, newConversation: Id, newMessage: Id)
    requires Inv(s)
    ensures Evolves(s, Send(s, command, newConversation, newMessage).0)
  {
    hide Inv, Evolves, Admit, EnsureConversation, Normalize, ActiveMember;
    EnvironmentEvolves(s, s.machines, s.members);
    if command.member in s.byOwner || newConversation !in s.conversations {
      var ensured := EnsureConversation(s, command.member, newConversation);
      EnsureEvolves(s, command.member, newConversation);
      EnsureKeepsInv(s, command.member, newConversation);
      if Normalize(command.text, MAX_MESSAGE_TEXT).Some? && Normalize(command.key, MAX_KEY).Some? {
        var text := Normalize(command.text, MAX_MESSAGE_TEXT).value;
        var key := Normalize(command.key, MAX_KEY).value;
        assert Numbered(ensured) by { InvNumbered(ensured); }
        AdmitEvolves(ensured, command.member, text, key, newMessage);
        EvolvesTransitive(s, ensured, Admit(ensured, command.member, text, key, newMessage).0);
      }
    }
  }

  lemma InvNumbered(s: State)
    requires Inv(s)
    ensures Numbered(s)
  {}

  lemma ClaimEvolves(s: State, command: ClaimCommand)
    ensures Evolves(s, ClaimReply(s, command).0)
  {
    hide Evolves, FixedSuffix, ContextRange, Rows, Contents, ActiveMember;
    var t := ClaimReply(s, command).0;
    EnvironmentEvolves(s, s.machines, s.members);
    if t != s {
      OneClaimEvolves(s, command.choice.value, t.claims[command.choice.value]);
    }
  }

  lemma RenewEvolves(s: State, command: RenewCommand)
    ensures Evolves(s, Renew(s, command).0)
  {
    hide Evolves;
    var t := Renew(s, command).0;
    EnvironmentEvolves(s, s.machines, s.members);
    if t != s {
      OneClaimEvolves(s, command.source, t.claims[command.source]);
    }
  }

  lemma CommitEvolves(s: State, command: CommitCommand, newReply: Id, newWork: Id)
    requires Inv(s)
    ensures Evolves(s, Commit(s, command, newReply, newWork).0)
  {
    hide Evolves, Commit, NormalizeCandidate, OutputDigest, Inv;
    var t := Commit(s, command, newReply, newWork).0;
    EnvironmentEvolves(s, s.machines, s.members);
    if t != s {
      CommitCompletes(s, command, newReply, newWork);
      InvNumbered(s);
      AppendEvolves(s, t, s.claims[command.source].conversation, newReply, t.messages[newReply]);
    }
  }

  lemma StepEvolves(s: State, op: Op)
    requires Inv(s)
    ensures Evolves(s, Apply(s, op))
  {
    hide Inv, Evolves, Send, ClaimReply, Renew, Commit;
    match op
    case OpSend(send, newConversation, newMessage) => SendEvolves(s, send, newConversation, newMessage);
    case OpClaim(claim) => ClaimEvolves(s, claim);
    case OpRenew(renew) => RenewEvolves(s, renew);
    case OpCommit(commit, newReply, newWork) => CommitEvolves(s, commit, newReply, newWork);
    case OpEnvironment(machines, members) => EnvironmentEvolves(s, machines, members);
  }

  lemma EnvironmentEvolves(s: State, machines: map<Id, Machine>, members: map<Member, bool>)
    ensures Evolves(s, s.(machines := machines, members := members))
  {}

  lemma {:induction false} RunEvolves(s: State, ops: seq<Op>)
    requires Inv(s)
    ensures Evolves(s, Run(s, ops))
    decreases |ops|
  {
    hide Inv, Evolves, Apply;
    if ops == [] {
      EnvironmentEvolves(s, s.machines, s.members);
    } else {
      RunEvolves(s, ops[..|ops| - 1]);
      InvOverRuns(s, ops[..|ops| - 1]);
      StepEvolves(Run(s, ops[..|ops| - 1]), ops[|ops| - 1]);
      EvolvesTransitive(s, Run(s, ops[..|ops| - 1]), Run(s, ops));
    }
  }
}
