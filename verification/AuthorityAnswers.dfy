/** What the authority lifecycles answer and record, told from the rows alone. */
module AuthorityAnswers {
  import opened Wrappers
  import opened Ids
  import opened Text
  import opened AgentKeys
  import opened AgentName
  import opened ReportCommand
  import opened Authority
  import opened AuthorityInvariant
  import opened AuthorityRuns
  import opened AuthorityTheorems
  import opened AuthorityOutcomes
  import ReportProtocol

  /** A membership that was never revoked. */
  predicate IsMember(s: State, space: Id, user: Id) {
    MemberKey(space, user) in s.members && s.members[MemberKey(space, user)].removal == None
  }

  // ----- Spaces -----

  /** A fresh request makes the creator the only, fully authorized member of a new Space. */
  lemma CreateSpaceIff(s: State, command: CreateSpaceCommand, userExists: bool, slugTaken: bool)
    requires CreationKey(command.user, command.key) !in s.byCreation && command.space !in s.spaces
    requires MemberKey(command.space, command.user) !in s.members
    ensures var (t, r) := CreateSpace(s, command, userExists, slugTaken);
      if !userExists then (t, r) == (s, Err(Forbidden))
      else if slugTaken then (t, r) == (s, Err(SlugConflict))
      else
        && r == Ok(CreatedSpace(command.space, true, true))
        && t == s.(spaces := t.spaces, byCreation := t.byCreation, members := t.members)
        && t.spaces == s.spaces[command.space := Space(command.user, command.key, command.digest)]
        && t.members == s.members[MemberKey(command.space, command.user) := Membership(true, true, None)]
  {}

  /**
    A fresh request of a User makes the creator the only, fully authorized member
    of a new Space; at any later time the same request finds it with the same
    rights, and any other under its key conflicts.
   */
  lemma CreateSpaceReplay(trace: Trace, command: CreateSpaceCommand, ops: seq<Op>, replay: CreateSpaceCommand, slugTaken: bool)
    requires Reachable(trace) && CreationKey(command.user, command.key) !in trace.rows.byCreation
    requires command.space !in trace.rows.spaces && MemberKey(command.space, command.user) !in trace.rows.members
    requires replay.user == command.user && replay.key == command.key
    ensures CreateSpace(trace.rows, command, true, false).1 == Ok(CreatedSpace(command.space, true, true))
    ensures CreateSpace(trace.rows, command, true, false).0.members
      == trace.rows.members[MemberKey(command.space, command.user) := Membership(true, true, None)]
    ensures var t := Run(Step(trace, OpCreateSpace(command, true, false)), ops).rows;
      CreateSpace(t, replay, true, slugTaken) ==
        if replay.digest == command.digest then (t, Ok(CreatedSpace(command.space, true, true)))
        else (t, Err(IdempotencyConflict))
  {
    hide Reachable, Run, Inv, Evolves, AcceptancesKept;
    var op := OpCreateSpace(command, true, false);
    var next := Step(trace, op);
    ReachableInv(trace);
    StepKeepsInv(trace, op);
    RunKeepsInv(next, ops);
    RunKeepsAcceptances(next, ops);
    CreationStays(next.rows, Run(next, ops).rows, command);
  }

  lemma CreationStays(s: State, t: State, command: CreateSpaceCommand)
    requires Evolves(s, t) && AcceptancesKept(s, t)
    requires CreationKey(command.user, command.key) in s.byCreation
    requires s.byCreation[CreationKey(command.user, command.key)] == command.space
    requires command.space in s.spaces && s.spaces[command.space].digest == command.digest
    requires MemberKey(command.space, command.user) in s.members
    ensures CreationKey(command.user, command.key) in t.byCreation
    ensures t.byCreation[CreationKey(command.user, command.key)] == command.space
    ensures command.space in t.spaces && t.spaces[command.space].digest == command.digest
    ensures var member := MemberKey(command.space, command.user);
      && member in t.members && t.members[member].manages == s.members[member].manages
      && t.members[member].enrolls == s.members[member].enrolls
  {
    hide MachinesAdvance, AgentsAdvance, WorksKept, RemovalsKept;
  }

  // ----- Invitations -----

  /**
    An open invitation is accepted exactly by its proved recipient, in time, unless
    they were once removed. The answer says which rights they then have and whether
    they were a member before, and at any later time both are still on record.
   */
  lemma AcceptanceStands(trace: Trace, command: AcceptCommand, recipient: Recipient, now: int, ops: seq<Op>)
    requires Reachable(trace) && command.invitation in trace.rows.invitations
    requires trace.rows.invitations[command.invitation].acceptance == None
    requires trace.rows.invitations[command.invitation].space in trace.rows.spaces
    ensures var s := trace.rows;
      var invitation := s.invitations[command.invitation];
      var member := MemberKey(invitation.space, command.user);
      var (t, r) := AcceptInvitation(s, command, recipient, now);
      && (r.Ok? <==>
            && TrimSpace(command.key) != [] && |command.key| <= 255
            && ProvedRecipient(command.user, recipient, now)
            && !invitation.revoked && now < invitation.expiresAt
            && (member in s.members ==> IsMember(s, invitation.space, command.user)))
      && (r.Err? ==> t == s)
      && (r.Ok? ==>
            var later := Run(Step(trace, OpAccept(command, recipient, now)), ops).rows;
            && IsMember(t, invitation.space, command.user)
            && r.value == Accepted(invitation.space, t.members[member].manages, t.members[member].enrolls, member in s.members)
            && member in later.members && later.members[member].manages == r.value.manages
            && later.members[member].enrolls == r.value.enrolls
            && command.invitation in later.invitations
            && later.invitations[command.invitation].acceptance
               == Some(Acceptance(command.user, r.value.alreadyMember, command.key, command.digest)))
  {
    hide Reachable, Run, Inv, AcceptInvitation, TrimSpace, Evolves, AcceptancesKept, ProvedRecipient;
    AcceptanceIffMember(trace.rows, command, recipient, now);
    if AcceptInvitation(trace.rows, command, recipient, now).1.Ok? {
      AcceptanceAnswers(trace.rows, command, recipient, now);
      var next := Step(trace, OpAccept(command, recipient, now));
      ReachableInv(trace);
      StepKeepsInv(trace, OpAccept(command, recipient, now));
      RunKeepsInv(next, ops);
      RunKeepsAcceptances(next, ops);
      InvitationStays(next.rows, Run(next, ops).rows, command.invitation,
                      MemberKey(trace.rows.invitations[command.invitation].space, command.user));
    }
  }

  lemma InvitationStays(s: State, t: State, invitation: Id, member: Member)
    requires AcceptancesKept(s, t) && invitation in s.invitations && s.invitations[invitation].acceptance.Some?
    requires Evolves(s, t) && member in s.members
    ensures invitation in t.invitations && t.invitations[invitation] == s.invitations[invitation]
    ensures member in t.members
    ensures t.members[member].manages == s.members[member].manages && t.members[member].enrolls == s.members[member].enrolls
  {
    hide MachinesAdvance, AgentsAdvance, WorksKept, RemovalsKept, SpacesKept;
  }

  /** A first acceptance answers what it left: the member's rights, and whether they were a member before. */
  lemma AcceptanceAnswers(s: State, command: AcceptCommand, recipient: Recipient, now: int)
    requires AcceptInvitation(s, command, recipient, now).1.Ok?
    requires command.invitation in s.invitations && s.invitations[command.invitation].acceptance == None
    ensures var (t, r) := AcceptInvitation(s, command, recipient, now);
      var invitation := s.invitations[command.invitation];
      var member := MemberKey(invitation.space, command.user);
      && IsMember(t, invitation.space, command.user) && (member in s.members ==> IsMember(s, invitation.space, command.user))
      && r.value == Accepted(invitation.space, t.members[member].manages, t.members[member].enrolls, member in s.members)
      && t == s.(members := t.members, invitations := t.invitations)
      && t.members == s.members[member := if member in s.members then s.members[member]
                                          else Membership(invitation.manages, invitation.enrolls, None)]
      && t.invitations == s.invitations[command.invitation := invitation.(
           acceptance := Some(Acceptance(command.user, member in s.members, command.key, command.digest)))]
  {
    hide TrimSpace, AcceptLocked;
    LockedAnswers(s, command, recipient.session.value, now);
  }

  lemma LockedAnswers(s: State, command: AcceptCommand, session: Session, now: int)
    requires command.invitation in s.invitations && s.invitations[command.invitation].acceptance == None
    requires AcceptLocked(s, command, session, s.invitations[command.invitation], now).1.Ok?
    ensures var invitation := s.invitations[command.invitation];
      var (t, r) := AcceptLocked(s, command, session, invitation, now);
      var member := MemberKey(invitation.space, command.user);
      && IsMember(t, invitation.space, command.user) && (member in s.members ==> IsMember(s, invitation.space, command.user))
      && r.value == Accepted(invitation.space, t.members[member].manages, t.members[member].enrolls, member in s.members)
      && t == s.(members := t.members, invitations := t.invitations)
      && t.members == s.members[member := if member in s.members then s.members[member]
                                          else Membership(invitation.manages, invitation.enrolls, None)]
      && t.invitations == s.invitations[command.invitation := invitation.(
           acceptance := Some(Acceptance(command.user, member in s.members, command.key, command.digest)))]
  {}

  /** An open invitation is accepted exactly by its proved recipient, in time, unless they were once removed. */
  lemma AcceptanceIffMember(s: State, command: AcceptCommand, recipient: Recipient, now: int)
    requires command.invitation in s.invitations && s.invitations[command.invitation].acceptance == None
    requires s.invitations[command.invitation].space in s.spaces
    ensures var invitation := s.invitations[command.invitation];
      AcceptInvitation(s, command, recipient, now).1.Ok? <==>
        && TrimSpace(command.key) != [] && |command.key| <= 255
        && ProvedRecipient(command.user, recipient, now)
        && !invitation.revoked && now < invitation.expiresAt
        && (MemberKey(invitation.space, command.user) in s.members ==> IsMember(s, invitation.space, command.user))
    ensures AcceptInvitation(s, command, recipient, now).1.Err? ==> AcceptInvitation(s, command, recipient, now).0 == s
  {
    hide TrimSpace;
  }

  // ----- Removal -----

  predicate Manages(s: State, space: Id, user: Id) {
    IsMember(s, space, user) && s.members[MemberKey(space, user)].manages
  }

  predicate Enrolls(s: State, space: Id, user: Id) {
    IsMember(s, space, user) && s.members[MemberKey(space, user)].enrolls
  }

  /**
    A fresh request removes a member exactly when a manager asks for it, somebody
    else keeps each authority the target has, and another member is named to
    succeed them exactly if they own Open Works. The removal records all of it.
   */
  lemma RemovalSucceeds(s: State, command: RemoveCommand)
    requires Normalize(command.key, MAX_KEY).Some? && command.space in s.spaces
    requires RemovalKey(command.space, command.actor, Normalize(command.key, MAX_KEY).value) !in s.byRemoval
    ensures var (t, r) := RemoveMember(s, command);
      var target := MemberKey(command.space, command.target);
      && (r.Ok? <==>
            && Manages(s, command.space, command.actor) && IsMember(s, command.space, command.target)
            && (Manages(s, command.space, command.target) ==>
                  exists u {:trigger Manages(s, command.space, u)} :: u != command.target && Manages(s, command.space, u))
            && (Enrolls(s, command.space, command.target) ==>
                  exists u {:trigger Enrolls(s, command.space, u)} :: u != command.target && Enrolls(s, command.space, u))
            && (command.successor.Some? <==> exists w :: w in s.works && s.works[w] == Work(command.space, command.target))
            && (command.successor.Some? ==>
                  command.successor.value != command.target && IsMember(s, command.space, command.successor.value)))
      && (r.Err? ==> t == s)
      && (r.Ok? ==>
            && target in s.members
            && t.members == s.members[target := s.members[target].(
                 removal := Some(Removal(command.actor, command.successor, Normalize(command.key, MAX_KEY).value)))])
  {
    hide Normalize, Transfer, RemoveAgents, ActiveAgentsOfOwner, RemovalRefused, RemoveMember, OwnsWork, OthersManage,
      OthersEnroll;
    RemovalIff(s, command);
    RemovableMeans(s, command);
    RemovalWrites(s, command);
  }

  lemma RemovableMeans(s: State, command: RemoveCommand)
    ensures OthersManage(s, command.space, command.target) <==>
      exists u {:trigger Manages(s, command.space, u)} :: u != command.target && Manages(s, command.space, u)
    ensures OthersEnroll(s, command.space, command.target) <==>
      exists u {:trigger Enrolls(s, command.space, u)} :: u != command.target && Enrolls(s, command.space, u)
    ensures OwnsWork(s, MemberKey(command.space, command.target)) <==>
      exists w :: w in s.works && s.works[w] == Work(command.space, command.target)
  {
    forall u {:trigger ActiveManager(s, command.space, u)} {:trigger Manages(s, command.space, u)}
      ensures ActiveManager(s, command.space, u) <==> Manages(s, command.space, u) {}
    forall u {:trigger ActiveEnroller(s, command.space, u)} {:trigger Enrolls(s, command.space, u)}
      ensures ActiveEnroller(s, command.space, u) <==> Enrolls(s, command.space, u) {}
  }

  lemma RemovalWrites(s: State, command: RemoveCommand)
    requires Normalize(command.key, MAX_KEY).Some? && command.space in s.spaces
    requires RemovalKey(command.space, command.actor, Normalize(command.key, MAX_KEY).value) !in s.byRemoval
    ensures var (t, r) := RemoveMember(s, command);
      var target := MemberKey(command.space, command.target);
      && (r.Err? ==> t == s)
      && (r.Ok? ==>
            && target in s.members
            && t.members == s.members[target := s.members[target].(
                 removal := Some(Removal(command.actor, command.successor, Normalize(command.key, MAX_KEY).value)))])
  {
    hide Normalize, ActiveAgentsOfOwner, RemovalRefused;
  }

  // ----- Revocation -----

  /** This User revoked another Machine under this request key. */
  ghost predicate KeySpent(s: State, user: Id, key: Bytes) {
    exists m :: m in s.machines && SpentOn(s.machines[m], user, key)
  }

  predicate SpentOn(machine: Machine, user: Id, key: Bytes) {
    match machine.revocation
    case Some(ByUser(actor, request, _)) => actor == user && request == key
    case _ => false
  }

  lemma KeySpentIff(s: State, user: Id, key: Bytes)
    ensures KeySpent(s, user, key) <==> UserRevocationTaken(s, user, key)
  {
    if UserRevocationTaken(s, user, key) {
      var m :| m in s.machines && s.machines[m].revocation.Some? && s.machines[m].revocation.value.ByUser?
        && s.machines[m].revocation.value.user == user && s.machines[m].revocation.value.key == key;
      assert SpentOn(s.machines[m], user, key);
    }
  }

  /**
    A browser revokes exactly a Machine of its Space, as an enroller there: first
    under a key not spent elsewhere, with the record of who did it; again as a
    no-op, unless the same User's same key comes with another digest.
   */
  lemma BrowserRevocationIff(s: State, command: RevokeCommand, session: Option<Id>)
    ensures var (t, r) := RevokeFromBrowser(s, command, session);
      var known := command.machine in s.machines && s.machines[command.machine].space == command.space;
      && (r.Ok? <==>
            && session.Some? && command.space in s.spaces && Enrolls(s, command.space, session.value) && known
            && (match s.machines[command.machine].revocation
                case None => !KeySpent(s, session.value, command.key)
                case Some(ByUser(user, key, digest)) =>
                  (user == session.value && key == command.key ==> digest == command.digest)
                case Some(ByMachine(_, _)) => true))
      && (r.Ok? ==> command.machine in t.machines && r.value == t.machines[command.machine])
      && (r.Err? || s.machines[command.machine].revocation != None ==> t == s)
      && (r.Ok? && s.machines[command.machine].revocation == None ==>
            t.machines == s.machines[command.machine := s.machines[command.machine].(
              revocation := Some(ByUser(session.value, command.key, command.digest)))])
  {
    hide UserRevocationTaken, KeySpent, ActiveAgentsOfMachine;
    if session.Some? { KeySpentIff(s, session.value, command.key); }
  }

  /** A Host revokes exactly the Machine of its certificate, with the same rules for a repeated request. */
  lemma HostRevocationIff(s: State, command: SelfRevokeCommand)
    ensures var (t, r) := RevokeFromHost(s, command);
      && (r.Ok? <==>
            && command.machine in s.machines && s.machines[command.machine].serial == command.serial
            && (match s.machines[command.machine].revocation
                case Some(ByMachine(key, digest)) => (key == command.key ==> digest == command.digest)
                case _ => true))
      && (r.Ok? ==> command.machine in t.machines && r.value == t.machines[command.machine])
      && (r.Err? || s.machines[command.machine].revocation != None ==> t == s)
      && (r.Ok? && s.machines[command.machine].revocation == None ==>
            t.machines == s.machines[command.machine := s.machines[command.machine].(
              revocation := Some(ByMachine(command.key, command.digest)))])
  {
    hide ActiveAgentsOfMachine;
  }

  /** A Machine is connected exactly under a new identity and certificate, to an existing Space, with nothing reported yet. */
  lemma ConnectIff(s: State, command: ConnectCommand)
    ensures var (t, r) := ConnectMachine(s, command);
      && (r.Ok? <==>
            && command.machine !in s.machines && command.space in s.spaces
            && forall m :: m in s.machines ==> s.machines[m].serial != command.serial)
      && (r.Err? ==> t == s)
      && (r.Ok? ==>
            t == s.(machines := s.machines[command.machine :=
              Machine(command.space, command.enroller, command.serial, None, 0, None)]))
  {}

  /** A Work is opened exactly for a member, who owns it. */
  lemma OpenWorkIff(s: State, owner: Member, work: Id)
    requires work !in s.works
    ensures var (t, r) := OpenWork(s, owner, work);
      && (r.Ok? <==> IsMember(s, owner.space, owner.user))
      && (r.Err? ==> t == s)
      && (r.Ok? ==> t == s.(works := s.works[work := Work(owner.space, owner.user)]))
  {
    assert MemberKey(owner.space, owner.user) == owner;
  }

  /**
    A Machine is revoked exactly on these conditions, by a browser or its Host, and
    whoever does it, first or again, exactly its own Agents have then ended.
   */
  lemma RevocationIff(trace: Trace, command: RevokeCommand, session: Option<Id>, host: SelfRevokeCommand)
    requires Reachable(trace)
    ensures var s := trace.rows;
      var (t, r) := RevokeFromBrowser(s, command, session);
      && (r.Ok? <==>
            && session.Some? && command.space in s.spaces && Enrolls(s, command.space, session.value)
            && command.machine in s.machines && s.machines[command.machine].space == command.space
            && (match s.machines[command.machine].revocation
                case None => !KeySpent(s, session.value, command.key)
                case Some(ByUser(user, key, digest)) =>
                  (user == session.value && key == command.key ==> digest == command.digest)
                case Some(ByMachine(_, _)) => true))
      && (r.Err? ==> t == s)
      && (r.Ok? ==>
            && OnlyRevoked(s, t, command.machine) && r.value == t.machines[command.machine]
            && t.machines[command.machine].revocation ==
                 if s.machines[command.machine].revocation.Some? then s.machines[command.machine].revocation
                 else Some(ByUser(session.value, command.key, command.digest)))
    ensures var s := trace.rows;
      var (t, r) := RevokeFromHost(s, host);
      && (r.Ok? <==>
            && host.machine in s.machines && s.machines[host.machine].serial == host.serial
            && (match s.machines[host.machine].revocation
                case Some(ByMachine(key, digest)) => (key == host.key ==> digest == host.digest)
                case _ => true))
      && (r.Err? ==> t == s)
      && (r.Ok? ==>
            && OnlyRevoked(s, t, host.machine) && r.value == t.machines[host.machine]
            && t.machines[host.machine].revocation ==
                 if s.machines[host.machine].revocation.Some? then s.machines[host.machine].revocation
                 else Some(ByMachine(host.key, host.digest)))
  {
    hide Reachable, RevokeFromBrowser, RevokeFromHost, KeySpent;
    RevocationEndsAgents(trace, command, session, host);
    BrowserRevocationIff(trace.rows, command, session);
    HostRevocationIff(trace.rows, host);
  }

  // ----- Reports -----

  /** The pre-read asks for allocation exactly when some recognized binding of the Machine has no Agent. */
  lemma PreReadIff(s: State, command: Command)
    ensures PreRead(s, command).Ok? <==> command.machine in s.machines
    ensures PreRead(s, command).Ok? ==>
      && PreRead(s, command).value.space == s.machines[command.machine].space
      && PreRead(s, command).value.enroller == s.machines[command.machine].enroller
      && (PreRead(s, command).value.needsAllocation <==>
            exists r :: r in command.recognized && AgentBinding(command.machine, r.binding) !in s.byBinding)
  {
    forall i | 0 <= i < |command.recognized| ensures command.recognized[i] in command.recognized {}
  }

  lemma {:induction false} MissingIff(s: State, machine: Id, recognized: seq<Recognized>, key: Bytes)
    ensures key in MissingAdapters(s, machine, recognized) <==>
      exists r :: r in recognized && r.binding.adapter == key && AgentBinding(machine, r.binding) !in s.byBinding
  {
    if recognized != [] {
      var init, last := recognized[..|recognized| - 1], recognized[|recognized| - 1];
      MissingIff(s, machine, init, key);
      assert recognized == init + [last];
      assert forall r :: r in recognized <==> r in init || r == last;
    }
  }

  /** Some observation of a known family with this key has no Agent yet. */
  ghost predicate Unhoused(s: State, request: Request, vocabulary: Vocabulary, key: Bytes) {
    && key in vocabulary
    && exists o :: o in request.observations && o.binding.adapter == key
                   && AgentBinding(request.machine, o.binding) !in s.byBinding
  }

  lemma UnhousedIff(s: State, request: Request, vocabulary: Vocabulary, key: Bytes)
    requires Canonical(request, vocabulary).Ok?
    ensures Unhoused(s, request, vocabulary, key) <==>
      key in MissingAdapters(s, request.machine, Canonical(request, vocabulary).value.recognized)
  {
    hide Canonical, ValidAdapterKey, DistinctBindings, ValidReportKeys, HasAdapter;
    var recognized := Canonical(request, vocabulary).value.recognized;
    CommandShape(request, vocabulary);
    MissingIff(s, request.machine, recognized, key);
    if Unhoused(s, request, vocabulary, key) {
      var o :| o in request.observations && o.binding.adapter == key && AgentBinding(request.machine, o.binding) !in s.byBinding;
      assert Recognized(o.binding, o.present, vocabulary[key].nameBase) in recognized;
    }
    if key in MissingAdapters(s, request.machine, recognized) {
      var r :| r in recognized && r.binding.adapter == key && AgentBinding(request.machine, r.binding) !in s.byBinding;
      assert Observation(r.binding, r.present) in request.observations;
    }
  }

  /**
    An applied report answers exactly the families it could not serve: as
    unsupported those of its observations that are not in the vocabulary, and as
    needing setup those with an observation that has no Agent, if the Machine's
    enroller is no longer a member. The same is recorded for its replays.
   */
  lemma AnswerNamesFamilies(trace: Trace, ticket: Id, ids: seq<Id>, request: Request, vocabulary: Vocabulary, key: Bytes)
    requires Reachable(trace) && ticket in trace.pending
    requires Canonical(request, vocabulary) == Ok(trace.pending[ticket].command)
    requires var Pending(command, path) := trace.pending[ticket]; Applies(trace.rows, command, path, ids)
    ensures request.machine in trace.rows.machines
    ensures var s := trace.rows;
      var Pending(command, path) := trace.pending[ticket];
      var (t, r) := Reconcile(s, command, path, ids);
      var machine := s.machines[request.machine];
      && r.Ok?
      && (key in r.value.unsupported <==>
            key !in vocabulary && exists o :: o in request.observations && o.binding.adapter == key)
      && (key in r.value.setupRequired <==>
            !IsMember(s, machine.space, machine.enroller) && Unhoused(s, request, vocabulary, key))
      && r.value.revision == machine.revision + 1
      && request.machine in t.machines && t.machines[request.machine].revision == r.value.revision
      && t.machines[request.machine].last
         == Some(LastReport(request.report, command.digest, r.value.unsupported, r.value.setupRequired))
  {
    hide Reachable, Inv, RowInv, Canonical, Allocate, Arbitrate, SetPresent, SortedKeys, Unhoused, MissingAdapters, Reconcile,
      Applies, ValidReportKeys, RecognizesExactly, DistinctBindings;
    ReachableInv(trace);
    PendingSound(trace, ticket);
    var Pending(command, path) := trace.pending[ticket];
    ReportProtocol.CommandOf(request, vocabulary);
    CommandShape(request, vocabulary);
    ReportProtocol.FinishedResult(trace.rows, command, path, ids);
    AppliedAnswer(trace.rows, command, path, ids);
    UnhousedIff(trace.rows, request, vocabulary, key);
    SetupIff(trace.rows, command, path, key);
    assert HasAdapter(request.observations, key) <==> exists o :: o in request.observations && o.binding.adapter == key;
  }

  lemma AppliedAnswer(s: State, command: Command, path: Path, ids: seq<Id>)
    requires Applies(s, command, path, ids)
    ensures Reconcile(s, command, path, ids).1.value.unsupported == command.unsupported
    ensures Reconcile(s, command, path, ids).1.value.setupRequired
      == SetupRequired(s, command.machine, ApproverActive(s, path), command.recognized)
  {
    hide Allocate, Arbitrate, SetPresent, SetupRequired, ApproverActive;
  }

  lemma SetupIff(s: State, command: Command, path: Path, key: Bytes)
    requires !path.needsAllocation ==> AllBound(s, command.machine, command.recognized)
    ensures key in SetupRequired(s, command.machine, ApproverActive(s, path), command.recognized) <==>
      !IsMember(s, path.space, path.enroller) && key in MissingAdapters(s, command.machine, command.recognized)
  {
    hide MissingAdapters, SortedKeys;
    SortedKeysExact(MissingAdapters(s, command.machine, command.recognized));
    MissingIff(s, command.machine, command.recognized, key);
  }

  // ----- Names -----

  /**
    A name of this base whose key was free, every smaller ordinal of the base
    being taken by then.
   */
  ghost predicate NamedNext(s: State, t: State, space: Id, base: Bytes, name: Name) {
    exists ordinal: nat :: ordinal > 0 && NamedWith(s, t, space, base, name, ordinal)
  }

  ghost predicate NamedWith(s: State, t: State, space: Id, base: Bytes, name: Name, ordinal: nat)
    requires ordinal > 0
  {
    && name == Name(NameOf(base, ordinal), Fold(NameOf(base, ordinal)))
    && AgentNameKey(space, name.key) !in s.byName
    && forall k {:trigger NameOf(base, k)} :: 1 <= k < ordinal ==> AgentNameKey(space, Fold(NameOf(base, k))) in t.byName
  }

  /** A new Agent serves a recognized observation of its report and is named after its family. */
  ghost predicate Introduced(s: State, t: State, machine: Id, path: Path, recognized: seq<Recognized>, n: nat, agent: Agent)
    requires n <= |recognized|
  {
    exists i :: 0 <= i < n && IntroducedBy(s, t, machine, path, recognized[i], agent)
  }

  ghost predicate IntroducedBy(s: State, t: State, machine: Id, path: Path, observation: Recognized, agent: Agent) {
    && agent.binding == observation.binding && agent.machine == machine && !agent.removed
    && agent.space == path.space && agent.owner == path.enroller
    && NamedNext(s, t, path.space, observation.nameBase, agent.name)
  }

  ghost predicate NamesGrow(s: State, t: State) {
    forall k {:trigger k in s.byName} :: k in s.byName ==> k in t.byName
  }

  lemma StillIntroduced(s: State, t: State, u: State, machine: Id, path: Path, recognized: seq<Recognized>, n: nat, m: nat,
                        agent: Agent)
    requires n <= m <= |recognized| && Introduced(s, t, machine, path, recognized, n, agent) && NamesGrow(t, u)
    ensures Introduced(s, u, machine, path, recognized, m, agent)
  {
    hide NameOf, Fold;
    var i :| 0 <= i < n && IntroducedBy(s, t, machine, path, recognized[i], agent);
    var ordinal: nat :| ordinal > 0 && NamedWith(s, t, path.space, recognized[i].nameBase, agent.name, ordinal);
    assert NamedWith(s, u, path.space, recognized[i].nameBase, agent.name, ordinal);
    assert IntroducedBy(s, u, machine, path, recognized[i], agent);
  }

  lemma OneIntroduced(s: State, machine: Id, path: Path, observation: Recognized, id: Option<Id>, before: State)
    requires AllocateOne(s, machine, path, observation, id).Ok? && NamesGrow(before, s)
    ensures var t := AllocateOne(s, machine, path, observation, id).value;
      && NamesGrow(s, t)
      && forall a :: a in t.agents && (a !in s.agents || t.agents[a] != s.agents[a]) ==>
           a !in s.agents && IntroducedBy(before, t, machine, path, observation, t.agents[a])
  {
    hide AllocatedName, ValidName, NameOf, Fold, NameForOrdinal, TakenKeys, NamedNext;
    if AgentBinding(machine, observation.binding) !in s.byBinding {
      var base, taken := observation.nameBase, TakenKeys(s, path.space);
      AllocatesLeastFree(base, taken);
      var name := AllocatedName(base, taken).value;
      var t := AllocateOne(s, machine, path, observation, id).value;
      NextName(s, t, path.space, base, name, before);
    }
  }

  lemma NextName(s: State, t: State, space: Id, base: Bytes, name: Name, before: State)
    requires NamedLeast(base, TakenKeys(s, space), name) && NamesGrow(before, s) && NamesGrow(s, t)
    ensures NamedNext(before, t, space, base, name)
  {
    hide NameOf, Fold, ValidName, TakenKeys;
    var ordinal: nat :| LeastFree(base, TakenKeys(s, space), ordinal) && NameForOrdinal(base, ordinal) == Some(name);
    TakenExact(s, space, name.key);
    forall k | 1 <= k < ordinal ensures AgentNameKey(space, Fold(NameOf(base, k))) in t.byName {
      assert KeyOf(base, k) in TakenKeys(s, space);
      TakenExact(s, space, KeyOf(base, k));
    }
    assert NamedWith(before, t, space, base, name, ordinal);
  }

  lemma {:induction false} AllIntroduced(s: State, machine: Id, path: Path, active: bool, recognized: seq<Recognized>,
                                         ids: seq<Id>, n: nat)
    requires n <= |recognized| && Allocate(s, machine, path, active, recognized, ids, n).Ok?
    ensures var t := Allocate(s, machine, path, active, recognized, ids, n).value;
      && NamesGrow(s, t)
      && forall a :: a in t.agents && a !in s.agents ==> Introduced(s, t, machine, path, recognized, n, t.agents[a])
  {
    hide AllocateOne, Introduced, IntroducedBy;
    if n > 0 {
      AllIntroduced(s, machine, path, active, recognized, ids, n - 1);
      var t := Allocate(s, machine, path, active, recognized, ids, n - 1).value;
      var u := Allocate(s, machine, path, active, recognized, ids, n).value;
      if active {
        OneIntroduced(t, machine, path, recognized[n - 1], if n - 1 < |ids| then Some(ids[n - 1]) else None, s);
      }
      forall a | a in u.agents && a !in s.agents ensures Introduced(s, u, machine, path, recognized, n, u.agents[a]) {
        if a in t.agents && u.agents[a] == t.agents[a] {
          StillIntroduced(s, t, u, machine, path, recognized, n - 1, n, u.agents[a]);
        } else {
          NewlyIntroduced(s, u, machine, path, recognized, n, u.agents[a]);
        }
      }
    }
  }

  lemma NewlyIntroduced(s: State, t: State, machine: Id, path: Path, recognized: seq<Recognized>, n: nat, agent: Agent)
    requires 0 < n <= |recognized| && IntroducedBy(s, t, machine, path, recognized[n - 1], agent)
    ensures Introduced(s, t, machine, path, recognized, n, agent)
  {
    hide IntroducedBy;
  }

  /**
    Each Agent a report adds serves one of its observations on its Machine, for
    the Machine's enroller, under the next free name of its family in the Space.
   */
  lemma NewAgentsIntroduced(s: State, command: Command, path: Path, ids: seq<Id>, a: Id)
    requires a !in s.agents && a in Reconcile(s, command, path, ids).0.agents
    ensures var t := Reconcile(s, command, path, ids).0;
      Introduced(s, t, command.machine, path, command.recognized, |command.recognized|, t.agents[a])
  {
    hide Arbitrate, Allocate, SetPresent, SetupRequired, ApproverActive, Introduced, NamesGrow;
    var t := Reconcile(s, command, path, ids).0;
    var n := |command.recognized|;
    AllIntroduced(s, command.machine, path, ApproverActive(s, path), command.recognized, ids, n);
    var extended := Allocate(s, command.machine, path, ApproverActive(s, path), command.recognized, ids, n).value;
    SameByName(extended, t);
    StillIntroduced(s, extended, t, command.machine, path, command.recognized, n, n, t.agents[a]);
  }

  lemma SameByName(s: State, t: State)
    requires s.byName == t.byName
    ensures NamesGrow(s, t)
  {}

  /** An Agent's name key is its name without the case of its ASCII letters. */
  ghost predicate NamesFolded(s: State) {
    forall a {:trigger a in s.agents} :: a in s.agents ==> s.agents[a].name.key == Fold(s.agents[a].name.text)
  }

  lemma IntroducedIsFolded(s: State, t: State, machine: Id, path: Path, recognized: seq<Recognized>, agent: Agent)
    requires Introduced(s, t, machine, path, recognized, |recognized|, agent)
    ensures agent.name.key == Fold(agent.name.text)
  {
    hide NameOf, Fold;
  }

  lemma OthersAddNoAgents(s: State, op: Op)
    ensures Apply(s, op).agents.Keys == s.agents.Keys
  {
    hide TrimSpace, SerialTaken, Active, RemovalRefused, Normalize, UserRevocationTaken, ActiveEnroller, RemoveAgents,
      ActiveAgentsOfMachine, ActiveAgentsOfOwner, AcceptLocked;
    RemovingKeepsAgents();
    if op.OpAccept? && op.accept.invitation in s.invitations && op.recipient.session.Some? {
      AcceptKeepsAgents(s, op.accept, op.recipient.session.value, op.now);
    }
  }

  lemma RemovingKeepsAgents()
    ensures forall s: State, removed {:trigger RemoveAgents(s, removed)} :: RemoveAgents(s, removed).agents.Keys == s.agents.Keys
  {}

  lemma AcceptKeepsAgents(s: State, command: AcceptCommand, session: Session, now: int)
    requires command.invitation in s.invitations
    ensures AcceptLocked(s, command, session, s.invitations[command.invitation], now).0.agents == s.agents
  {}

  lemma StepKeepsFolded(trace: Trace, op: Op)
    requires Inv(trace) && NamesFolded(trace.rows)
    ensures NamesFolded(Step(trace, op).rows)
  {
    hide Inv, Apply, Reconcile, PreRead, Applies, Fold, Introduced, MachinesAdvance, MembersAdvance, WorksKept, RemovalsKept,
      SpacesKept;
    StepKeepsInv(trace, op);
    var s, t := trace.rows, Step(trace, op).rows;
    forall a | a in t.agents ensures t.agents[a].name.key == Fold(t.agents[a].name.text) {
      if a in s.agents {
        assert t.agents[a].name == s.agents[a].name;
      } else if op.OpReconcile? {
        var pending := trace.pending[op.ticket];
        NewAgentsIntroduced(s, pending.command, pending.path, op.ids, a);
        IntroducedIsFolded(s, t, pending.command.machine, pending.path, pending.command.recognized, t.agents[a]);
      } else {
        OthersAddNoAgents(s, op);
      }
    }
  }

  lemma {:induction false} RunStaysFolded(ops: seq<Op>)
    ensures Inv(Run(EMPTY, ops)) && NamesFolded(Run(EMPTY, ops).rows)
    decreases |ops|
  {
    hide Inv, Step, NamesFolded, Evolves;
    if ops == [] {
      EmptyInv();
      EmptyFolded();
    } else {
      RunStaysFolded(ops[..|ops| - 1]);
      StepKeepsInv(Run(EMPTY, ops[..|ops| - 1]), ops[|ops| - 1]);
      StepKeepsFolded(Run(EMPTY, ops[..|ops| - 1]), ops[|ops| - 1]);
    }
  }

  lemma EmptyFolded()
    ensures NamesFolded(EMPTY.rows)
  {}

  /** No two Agents of a Space, removed ones included, have names that differ only in the case of ASCII letters. */
  lemma NamesDistinctUpToCase(trace: Trace, a: Id, b: Id)
    requires Reachable(trace) && a in trace.rows.agents && b in trace.rows.agents
    requires trace.rows.agents[a].space == trace.rows.agents[b].space && a != b
    ensures var x, y := trace.rows.agents[a].name.text, trace.rows.agents[b].name.text;
      |x| == |y| ==> exists i :: 0 <= i < |x| && !SameLetter(x[i], y[i])
  {
    hide Run, Fold, Step, Inv, RowInv;
    var ops :| trace == Run(EMPTY, ops);
    RunStaysFolded(ops);
    RunNothing(trace);
    NamesAreForever(trace, a, [], b);
    FoldsAlike(trace.rows.agents[a].name.text, trace.rows.agents[b].name.text);
  }

  lemma RunNothing(trace: Trace)
    ensures Run(trace, []) == trace
  {}
}
