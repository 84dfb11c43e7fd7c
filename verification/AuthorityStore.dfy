/** The authority transactions as they run against the tables, with commit and rollback. */
module AuthorityStore {
  import opened Wrappers
  import opened Ids
  import opened Text
  import opened AgentKeys
  import opened AgentName
  import opened ReportCommand
  import opened Authority

  class Store {
    var spaces: map<Id, Space>
    var byCreation: map<CreationKey, Id>
    var members: map<Member, Membership>
    var byRemoval: map<RemovalKey, Id>
    var invitations: map<Id, Invitation>
    var machines: map<Id, Machine>
    var agents: map<Id, Agent>
    var presence: map<Id, bool>
    var byBinding: map<AgentBinding, Id>
    var byName: map<AgentNameKey, Id>
    var works: map<Id, Work>

    constructor ()
      ensures Tables() == EMPTY_STATE
    {
      spaces, byCreation, members, byRemoval, invitations := map[], map[], map[], map[], map[];
      machines, agents, presence, byBinding, byName, works := map[], map[], map[], map[], map[], map[];
    }

    /** The committed rows. */
    function Tables(): State
      reads this
    {
      State(spaces, byCreation, members, byRemoval, invitations, machines, agents, presence, byBinding, byName, works)
    }

    /** Discards everything the transaction wrote. */
    method Rollback(saved: State)
      modifies this
      ensures Tables() == saved
    {
      spaces, byCreation, members, byRemoval := saved.spaces, saved.byCreation, saved.members, saved.byRemoval;
      invitations, machines, agents, presence := saved.invitations, saved.machines, saved.agents, saved.presence;
      byBinding, byName, works := saved.byBinding, saved.byName, saved.works;
    }

    // ----- Spaces and invitations -----

    method CreateSpace(command: CreateSpaceCommand, userExists: bool, slugTaken: bool)
      returns (r: Result<CreatedSpace, Error>)
      modifies this
      ensures (Tables(), r) == Authority.CreateSpace(old(Tables()), command, userExists, slugTaken)
    {
      if !userExists {
        return Err(Forbidden);
      }
      var request := CreationKey(command.user, command.key);
      if request in byCreation {
        var existing := byCreation[request];
        var creator := MemberKey(existing, command.user);
        if existing !in spaces || creator !in members {
          return Err(DatabaseFailure);
        }
        if spaces[existing].digest != command.digest {
          return Err(IdempotencyConflict);
        }
        return Ok(CreatedSpace(existing, members[creator].manages, members[creator].enrolls));
      }
      if slugTaken {
        return Err(SlugConflict);
      }
      if command.space in spaces || MemberKey(command.space, command.user) in members {
        return Err(DatabaseFailure);
      }
      spaces := spaces[command.space := Space(command.user, command.key, command.digest)];
      byCreation := byCreation[request := command.space];
      members := members[MemberKey(command.space, command.user) := Membership(true, true, None)];
      return Ok(CreatedSpace(command.space, true, true));
    }

    method AcceptInvitation(command: AcceptCommand, recipient: Recipient, now: int)
      returns (r: Result<Accepted, Error>)
      modifies this
      ensures (Tables(), r) == Authority.AcceptInvitation(old(Tables()), command, recipient, now)
    {
      hide TrimSpace, AcceptLocked;
      if TrimSpace(command.key) == [] || |command.key| > MAX_KEY {
        return Err(InvalidInvitation);
      }
      if command.invitation !in invitations {
        return Err(InvitationUnavailable);
      }
      if !recipient.userExists || recipient.session.None? {
        return Err(Unauthenticated);
      }
      var session := recipient.session.value;
      if session.user != command.user || session.revoked {
        return Err(Unauthenticated);
      }
      if recipient.emailOwner != Some(command.user) {
        return Err(InvitationUnavailable);
      }
      var invitation := invitations[command.invitation];
      if invitation.acceptance.Some? {
        if invitation.acceptance.value.user != command.user {
          return Err(InvitationUnavailable);
        }
        if invitation.acceptance.value.key != command.key || invitation.acceptance.value.digest != command.digest {
          return Err(InvitationAccepted);
        }
      }
      if invitation.revoked {
        return Err(InvitationRevoked);
      }
      var saved := Tables();
      r := Admit(command, session, invitation, now);
      if r.Err? {
        Rollback(saved);
        AcceptRefused(saved, command, session, invitation, now);
      }
    }

    /** From the Membership lock on: joins first, and reads the clock only after that. */
    method Admit(command: AcceptCommand, session: Session, invitation: Invitation, now: int)
      returns (r: Result<Accepted, Error>)
      modifies this`members, this`invitations
      ensures r == AcceptLocked(old(Tables()), command, session, invitation, now).1
      ensures r.Ok? ==> Tables() == AcceptLocked(old(Tables()), command, session, invitation, now).0
    {
      var replay := invitation.acceptance.Some?;
      if !replay && !session.emailProof {
        return Err(InvitationProofRequired);
      }
      var member := MemberKey(invitation.space, command.user);
      var already := member in members;
      if already && members[member].removal.Some? {
        return Err(InvitationUnavailable);
      }
      if !already {
        if replay {
          return Err(InvitationUnavailable);
        }
        if invitation.space !in spaces {
          return Err(DatabaseFailure);
        }
        members := members[member := Membership(invitation.manages, invitation.enrolls, None)];
      } else if invitation.space !in spaces {
        return Err(DatabaseFailure);
      }
      if session.expiresAt <= now {
        return Err(Unauthenticated);
      }
      var membership := members[member];
      if replay {
        return Ok(Accepted(invitation.space, membership.manages, membership.enrolls, invitation.acceptance.value.alreadyMember));
      }
      if session.provedAt + PROOF_LIFETIME <= now {
        return Err(InvitationProofRequired);
      }
      if invitation.expiresAt <= now {
        return Err(InvitationExpired);
      }
      invitations := invitations[command.invitation :=
        invitation.(acceptance := Some(Acceptance(command.user, already, command.key, command.digest)))];
      assert old(members)[member := membership] == members;
      return Ok(Accepted(invitation.space, membership.manages, membership.enrolls, already));
    }

    // ----- Member removal -----

    /** `LockMembershipForRemoval` for each participant that has a row. */
    method LockParticipants(space: Id, participants: seq<Id>) returns (locked: map<Id, Membership>)
      ensures forall u :: u in locked <==> u in participants && MemberKey(space, u) in members
      ensures forall u :: u in locked ==> locked[u] == members[MemberKey(space, u)]
    {
      locked := map[];
      for index := 0 to |participants|
        invariant forall u :: u in locked <==> u in participants[..index] && MemberKey(space, u) in members
        invariant forall u :: u in locked ==> locked[u] == members[MemberKey(space, u)]
      {
        var user := participants[index];
        if user in locked || MemberKey(space, user) !in members {
          continue;
        }
        locked := locked[user := members[MemberKey(space, user)]];
      }
    }

    /** The guards of a removal, on the locked rows. */
    method CheckRemoval(command: RemoveCommand) returns (refused: Option<Error>)
      ensures refused == RemovalRefused(Tables(), command)
    {
      hide Managers, Enrollers, OpenWorksOf;
      var participants := [command.actor, command.target];
      if command.successor.Some? {
        participants := participants + [command.successor.value];
      }
      var locked := LockParticipants(command.space, participants);
      if command.actor !in locked || locked[command.actor].removal.Some? || !locked[command.actor].manages {
        return Some(Forbidden);
      }
      if command.target !in locked || locked[command.target].removal.Some? {
        return Some(MemberUnavailable);
      }
      if command.successor.Some? {
        var successor := command.successor.value;
        if successor == command.target || successor !in locked || locked[successor].removal.Some? {
          return Some(RemovalSuccessorInvalid);
        }
      }
      if locked[command.target].manages && |Managers(Tables(), command.space)| <= 1 {
        return Some(LastMemberManager);
      }
      if locked[command.target].enrolls && |Enrollers(Tables(), command.space)| <= 1 {
        return Some(LastMachineEnroller);
      }
      var workIds := OpenWorksOf(Tables(), MemberKey(command.space, command.target));
      if workIds == {} && command.successor.Some? {
        return Some(RemovalSuccessorUnexpected);
      }
      if workIds != {} && command.successor.None? {
        return Some(RemovalSuccessorRequired);
      }
      return None;
    }

    method TransferOpenWorks(target: Member, successor: Id)
      modifies this`works
      ensures Tables() == Transfer(old(Tables()), target, successor)
    {
      works := map w | w in works ::
        if works[w].space == target.space && works[w].owner == target.user
        then works[w].(owner := successor) else works[w];
    }

    method RemoveLockedAgents(removed: set<Id>)
      modifies this`agents, this`presence
      ensures Tables() == RemoveAgents(old(Tables()), removed)
    {
      agents := map a | a in agents :: if a in removed then agents[a].(removed := true) else agents[a];
      presence := map a | a in presence :: if a in removed then false else presence[a];
    }

    method RemoveSpaceMember(command: RemoveCommand) returns (r: Result<(), Error>)
      modifies this
      ensures (Tables(), r) == RemoveMember(old(Tables()), command)
    {
      hide Normalize, RemovalRefused, Transfer, RemoveAgents, ActiveAgentsOfOwner;
      var key := Normalize(command.key, MAX_KEY);
      if key.None? {
        return Err(InvalidMemberRemoval);
      }
      if command.space !in spaces {
        return Err(MemberUnavailable);
      }
      var target := MemberKey(command.space, command.target);
      var replay := RemovalKey(command.space, command.actor, key.value);
      if replay in byRemoval {
        var removed := MemberKey(command.space, byRemoval[replay]);
        if removed !in members || members[removed].removal.None? {
          return Err(DatabaseFailure);
        }
        if removed != target || members[removed].removal.value.successor != command.successor {
          return Err(IdempotencyConflict);
        }
        return Ok(());
      }
      var refused := CheckRemoval(command);
      if refused.Some? {
        return Err(refused.value);
      }
      if command.successor.Some? {
        TransferOpenWorks(target, command.successor.value);
      }
      RemoveLockedAgents(ActiveAgentsOfOwner(Tables(), target));
      members := members[target := members[target].(removal := Some(Removal(command.actor, command.successor, key.value)))];
      byRemoval := byRemoval[replay := command.target];
      return Ok(());
    }

    // ----- Machines -----

    method RevokeMachine(machine: Id, revocation: Revocation)
      requires machine in machines
      modifies this`machines, this`agents, this`presence
      ensures Tables() == Revoke(old(Tables()), machine, revocation)
    {
      machines := machines[machine := machines[machine].(revocation := Some(revocation))];
      assert ActiveAgentsOfMachine(Tables(), machine) == ActiveAgentsOfMachine(old(Tables()), machine);
      RemoveLockedAgents(ActiveAgentsOfMachine(Tables(), machine));
    }

    method RevokeMachineFromBrowser(command: RevokeCommand, session: Option<Id>) returns (r: Result<Machine, Error>)
      modifies this
      ensures (Tables(), r) == RevokeFromBrowser(old(Tables()), command, session)
    {
      hide Revoke, UserRevocationTaken, ActiveEnroller;
      if session.None? || command.space !in spaces {
        return Err(MachineUnavailable);
      }
      var user := session.value;
      if !ActiveEnroller(Tables(), command.space, user) {
        return Err(MachineAuthority);
      }
      if command.machine !in machines || machines[command.machine].space != command.space {
        return Err(MachineUnavailable);
      }
      var revocation := machines[command.machine].revocation;
      if revocation.Some? {
        if revocation.value.ByUser? && revocation.value.user == user && revocation.value.key == command.key
           && revocation.value.digest != command.digest {
          return Err(ConnectionConflict);
        }
      } else {
        if UserRevocationTaken(Tables(), user, command.key) {
          return Err(ConnectionConflict);
        }
        RevokeMachine(command.machine, ByUser(user, command.key, command.digest));
      }
      return Ok(machines[command.machine]);
    }

    method RevokeMachineFromHost(command: SelfRevokeCommand) returns (r: Result<Machine, Error>)
      modifies this
      ensures (Tables(), r) == RevokeFromHost(old(Tables()), command)
    {
      hide Revoke;
      if command.machine !in machines || machines[command.machine].serial != command.serial {
        return Err(MachineUnavailable);
      }
      var revocation := machines[command.machine].revocation;
      if revocation.Some? {
        if revocation.value.ByMachine? && revocation.value.key == command.key
           && revocation.value.digest != command.digest {
          return Err(ConnectionConflict);
        }
      } else {
        RevokeMachine(command.machine, ByMachine(command.key, command.digest));
      }
      return Ok(machines[command.machine]);
    }

    // ----- Agent reports -----

    /** Phase 1, outside any lock: which recognized bindings are missing decides the lock path. */
    method ChooseReportPath(command: Command) returns (r: Result<Path, ReportFailure>)
      ensures r == PreRead(Tables(), command)
    {
      if command.machine !in machines {
        return Err(ReportMachineUnavailable);
      }
      var pathMachine := machines[command.machine];
      var existing := set b | b in byBinding && b.machine == command.machine :: b.binding;
      var needsAllocation := false;
      for index := 0 to |command.recognized|
        invariant !needsAllocation
        invariant forall i :: 0 <= i < index ==> Bound(Tables(), command.machine, command.recognized[i].binding)
      {
        var binding := command.recognized[index].binding;
        assert AgentBinding(command.machine, binding).binding == binding;
        if binding !in existing {
          needsAllocation := true;
          assert !Bound(Tables(), command.machine, binding);
          break;
        }
      }
      return Ok(Path(pathMachine.space, pathMachine.enroller, needsAllocation));
    }

    /** `InsertAgent` and `InsertAgentPresence` under the allocated name. */
    method InsertAgent(machine: Id, path: Path, observation: Recognized, id: Option<Id>)
      returns (failure: Option<ReportFailure>)
      requires AgentBinding(machine, observation.binding) !in byBinding
      modifies this`agents, this`presence, this`byBinding, this`byName
      ensures AllocateOne(old(Tables()), machine, path, observation, id) ==
        if failure.Some? then Err(failure.value) else Ok(Tables())
      ensures failure.None? ==>
        id.Some? && byBinding == old(byBinding)[AgentBinding(machine, observation.binding) := id.value]
    {
      hide AllocatedName, TakenKeys;
      var name := AllocateAgentName(observation.nameBase, TakenKeys(Tables(), path.space));
      if name.None? {
        return Some(ReportTemporarilyUnavailable);
      }
      if id.None? || id.value in agents || id.value in presence {
        return Some(ReportOutcomeUnknown);
      }
      agents := agents[id.value := Agent(path.space, machine, path.enroller, observation.binding, name.value, false)];
      presence := presence[id.value := false];
      byBinding := byBinding[AgentBinding(machine, observation.binding) := id.value];
      byName := byName[AgentNameKey(path.space, name.value.key) := id.value];
      return None;
    }

    /** Phase 5: allocates what is missing, or collects the families that need a new approver. */
    method AllocateMissing(machine: Id, path: Path, approverActive: bool, recognized: seq<Recognized>, ids: seq<Id>)
      returns (failure: Option<ReportFailure>, setupRequired: set<Bytes>, bindings: map<Binding, Id>)
      modifies this`agents, this`presence, this`byBinding, this`byName
      ensures Allocate(old(Tables()), machine, path, approverActive, recognized, ids, |recognized|) ==
        if failure.Some? then Err(failure.value) else Ok(Tables())
      ensures failure.None? ==> MachineBindings(Tables(), machine, bindings)
      ensures failure.None? ==> forall k :: k in setupRequired <==>
        !approverActive && k in MissingAdapters(old(Tables()), machine, recognized)
    {
      hide AllocateOne, Allocate, MachineBindings, MissingAdapters;
      bindings := map b | b in byBinding && b.machine == machine :: b.binding := byBinding[b];
      setupRequired := {};
      LoadedBindings(Tables(), machine, bindings);
      NothingYet(Tables(), machine, path, approverActive, recognized, ids);
      for index := 0 to |recognized|
        invariant Allocate(old(Tables()), machine, path, approverActive, recognized, ids, index) == Ok(Tables())
        invariant MachineBindings(Tables(), machine, bindings)
        invariant !approverActive ==> Tables() == old(Tables())
        invariant forall k :: k in setupRequired <==>
          !approverActive && k in MissingAdapters(old(Tables()), machine, recognized[..index])
      {
        var observation := recognized[index];
        var id := if index < |ids| then Some(ids[index]) else None;
        BindingLookup(Tables(), machine, bindings, observation.binding);
        MissingStep(old(Tables()), machine, recognized, index);
        AllocateStep(old(Tables()), Tables(), machine, path, approverActive, recognized, ids, index);
        if observation.binding in bindings {
          AlreadyBound(Tables(), machine, path, observation, id);
          continue;
        }
        if !approverActive {
          setupRequired := setupRequired + {observation.binding.adapter};
          continue;
        }
        ghost var before := Tables();
        failure := InsertAgent(machine, path, observation, id);
        if failure.Some? {
          AllocateFails(old(Tables()), machine, path, approverActive, recognized, ids, index + 1);
          return;
        }
        ExtendedBindings(before, Tables(), machine, bindings, observation.binding, id.value);
        bindings := bindings[observation.binding := id.value];
      }
      assert recognized[..|recognized|] == recognized;
      failure := None;
    }

    /** Phase 6: everything of the Machine absent, then the listed Agents present one by one. */
    method ReplaceMachinePresence(machine: Id, recognized: seq<Recognized>, bindings: map<Binding, Id>)
      requires MachineBindings(Tables(), machine, bindings)
      modifies this`presence
      ensures Tables() == ReplacePresence(old(Tables()), machine, recognized)
    {
      presence := SetAbsent(Tables(), machine);
      for index := 0 to |recognized|
        invariant presence == SetPresent(old(Tables()), machine, recognized, index)
      {
        var observation := recognized[index];
        BindingLookup(old(Tables()), machine, bindings, observation.binding);
        if !observation.present {
          continue;
        }
        if observation.binding !in bindings || bindings[observation.binding] !in agents
           || agents[bindings[observation.binding]].removed {
          continue;
        }
        if bindings[observation.binding] in presence {
          presence := presence[bindings[observation.binding] := true];
        }
      }
    }

    /** Phases 2 to 6 of the report, under the locks the path chose. */
    method ReconcileAgentPresence(command: Command, path: Path, ids: seq<Id>)
      returns (r: Result<ReportResult, ReportFailure>)
      modifies this
      ensures (Tables(), r) == Reconcile(old(Tables()), command, path, ids)
    {
      hide Allocate, ReplacePresence, MachineBindings, ApproverActive, MissingAdapters, SortedKeys, Increasing;
      if path.needsAllocation && path.space !in spaces {
        return Err(ReportTemporarilyUnavailable);
      }
      var approverActive := ApproverActive(Tables(), path);
      if command.machine !in machines || machines[command.machine].serial != command.serial {
        return Err(ReportMachineUnavailable);
      }
      var stored := machines[command.machine];
      if stored.revocation.Some? {
        return Err(ReportMachineRevoked);
      }
      if stored.last.Some? && stored.last.value.id == command.report {
        if stored.last.value.digest != command.digest {
          return Err(ReportConflict);
        }
        return Ok(ReportResult(stored.revision, stored.last.value.unsupported, stored.last.value.setupRequired));
      }
      if command.base != stored.revision {
        return Err(ReportStale(stored.revision));
      }
      var saved := Tables();
      var failure, setupSet, bindings := AllocateMissing(command.machine, path, approverActive, command.recognized, ids);
      if failure.Some? {
        Rollback(saved);
        return Err(failure.value);
      }
      var setupRequired := SortKeySet(setupSet);
      SetupIsSorted(saved, command.machine, approverActive, command.recognized, setupRequired);
      ReplaceMachinePresence(command.machine, command.recognized, bindings);
      var revision := machines[command.machine].revision + 1;
      machines := machines[command.machine := machines[command.machine].(
        revision := revision,
        last := Some(LastReport(command.report, command.digest, command.unsupported, setupRequired)))];
      return Ok(ReportResult(revision, command.unsupported, setupRequired));
    }
  }

  /** The bindings of one Machine, as a map to their Agents. */
  ghost predicate MachineBindings(s: State, machine: Id, bindings: map<Binding, Id>) {
    forall b: Binding {:trigger b in bindings} {:trigger AgentBinding(machine, b)} ::
      && (b in bindings <==> AgentBinding(machine, b) in s.byBinding)
      && (b in bindings ==> bindings[b] == s.byBinding[AgentBinding(machine, b)])
  }

  lemma LoadedBindings(s: State, machine: Id, bindings: map<Binding, Id>)
    requires bindings == map b | b in s.byBinding && b.machine == machine :: b.binding := s.byBinding[b]
    ensures MachineBindings(s, machine, bindings)
  {
    forall b: Binding
      ensures (b in bindings <==> AgentBinding(machine, b) in s.byBinding)
      ensures (b in bindings ==> bindings[b] == s.byBinding[AgentBinding(machine, b)])
    {
      assert AgentBinding(machine, b).binding == b;
    }
  }

  lemma BindingLookup(s: State, machine: Id, bindings: map<Binding, Id>, binding: Binding)
    requires MachineBindings(s, machine, bindings)
    ensures binding in bindings <==> AgentBinding(machine, binding) in s.byBinding
    ensures binding in bindings ==> bindings[binding] == s.byBinding[AgentBinding(machine, binding)]
  {}

  lemma ExtendedBindings(s: State, t: State, machine: Id, bindings: map<Binding, Id>, binding: Binding, id: Id)
    requires MachineBindings(s, machine, bindings)
    requires t.byBinding == s.byBinding[AgentBinding(machine, binding) := id]
    ensures MachineBindings(t, machine, bindings[binding := id])
  {}

  lemma NothingYet(s: State, machine: Id, path: Path, active: bool, recognized: seq<Recognized>, ids: seq<Id>)
    ensures Allocate(s, machine, path, active, recognized, ids, 0) == Ok(s)
    ensures MissingAdapters(s, machine, recognized[..0]) == []
  {}

  lemma MissingStep(s: State, machine: Id, recognized: seq<Recognized>, n: nat)
    requires n < |recognized|
    ensures MissingAdapters(s, machine, recognized[..n + 1]) ==
      MissingAdapters(s, machine, recognized[..n])
        + if AgentBinding(machine, recognized[n].binding) in s.byBinding then [] else [recognized[n].binding.adapter]
  {
    assert recognized[..n + 1][..n] == recognized[..n];
  }

  lemma AllocateStep(s: State, t: State, machine: Id, path: Path, active: bool, recognized: seq<Recognized>,
                     ids: seq<Id>, n: nat)
    requires n < |recognized| && Allocate(s, machine, path, active, recognized, ids, n) == Ok(t)
    ensures Allocate(s, machine, path, active, recognized, ids, n + 1) ==
      if active then AllocateOne(t, machine, path, recognized[n], if n < |ids| then Some(ids[n]) else None) else Ok(t)
  {
    hide AllocateOne;
  }

  lemma AlreadyBound(s: State, machine: Id, path: Path, observation: Recognized, id: Option<Id>)
    requires AgentBinding(machine, observation.binding) in s.byBinding
    ensures AllocateOne(s, machine, path, observation, id) == Ok(s)
  {}

  /** A failed allocation fails the whole phase. */
  lemma {:induction false} AllocateFails(s: State, machine: Id, path: Path, active: bool, recognized: seq<Recognized>,
                                         ids: seq<Id>, n: nat)
    requires n <= |recognized| && Allocate(s, machine, path, active, recognized, ids, n).Err?
    ensures Allocate(s, machine, path, active, recognized, ids, |recognized|)
      == Allocate(s, machine, path, active, recognized, ids, n)
    decreases |recognized| - n
  {
    hide AllocateOne;
    if n < |recognized| {
      AllocateFails(s, machine, path, active, recognized, ids, n + 1);
    }
  }

  lemma SetupIsSorted(s: State, machine: Id, active: bool, recognized: seq<Recognized>, sorted: seq<Bytes>)
    requires Increasing(sorted)
    requires forall k :: k in sorted <==> !active && k in MissingAdapters(s, machine, recognized)
    ensures sorted == SetupRequired(s, machine, active, recognized)
  {
    hide SortedKeys, MissingAdapters;
    SortedKeysExact(MissingAdapters(s, machine, recognized));
    IncreasingUnique(sorted, SetupRequired(s, machine, active, recognized));
  }

  lemma AcceptRefused(s: State, command: AcceptCommand, session: Session, invitation: Invitation, now: int)
    requires AcceptLocked(s, command, session, invitation, now).1.Err?
    ensures AcceptLocked(s, command, session, invitation, now).0 == s
  {}
}
