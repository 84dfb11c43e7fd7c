/** Exactly when removals, revocations and reports take effect, over every run of the authority lifecycles. */
module AuthorityOutcomes {
  import opened Wrappers
  import opened Ids
  import opened Text
  import opened AgentName
  import opened ReportCommand
  import opened Authority
  import opened AuthorityInvariant
  import opened AuthorityRuns
  import opened AuthorityTheorems
  import ReportProtocol

  // ----- Member removal -----

  ghost predicate OthersManage(s: State, space: Id, user: Id) {
    exists u {:trigger ActiveManager(s, space, u)} :: u != user && ActiveManager(s, space, u)
  }

  ghost predicate OthersEnroll(s: State, space: Id, user: Id) {
    exists u {:trigger ActiveEnroller(s, space, u)} :: u != user && ActiveEnroller(s, space, u)
  }

  ghost predicate OwnsWork(s: State, member: Member) {
    exists w :: w in s.works && MemberKey(s.works[w].space, s.works[w].owner) == member
  }

  /** Who may be removed, by whom, and in whose favour. */
  ghost predicate Removable(s: State, command: RemoveCommand) {
    && ActiveManager(s, command.space, command.actor)
    && Active(s, MemberKey(command.space, command.target))
    && (ActiveManager(s, command.space, command.target) ==> OthersManage(s, command.space, command.target))
    && (ActiveEnroller(s, command.space, command.target) ==> OthersEnroll(s, command.space, command.target))
    && (command.successor.Some? <==> OwnsWork(s, MemberKey(command.space, command.target)))
    && (command.successor.Some? ==>
          command.successor.value != command.target && Active(s, MemberKey(command.space, command.successor.value)))
  }

  lemma LastAuthority(s: State, space: Id, target: Id)
    ensures ActiveManager(s, space, target) ==> (|Managers(s, space)| <= 1 <==> !OthersManage(s, space, target))
    ensures ActiveEnroller(s, space, target) ==> (|Enrollers(s, space)| <= 1 <==> !OthersEnroll(s, space, target))
  {
    hide ActiveManager, ActiveEnroller, Managers, Enrollers;
    if ActiveManager(s, space, target) || ActiveEnroller(s, space, target) { LastAuthorityIff(s, space, target); }
  }

  lemma OwnsWorkIff(s: State, member: Member)
    ensures OwnsWork(s, member) <==> OpenWorksOf(s, member) != {}
  {
    if OwnsWork(s, member) {
      var w :| w in s.works && MemberKey(s.works[w].space, s.works[w].owner) == member;
      assert w in OpenWorksOf(s, member);
    }
    if OpenWorksOf(s, member) != {} {
      var w :| w in OpenWorksOf(s, member);
      assert MemberKey(s.works[w].space, s.works[w].owner) == member;
    }
  }

  /**
    A fresh request removes a member exactly when an active manager asks for it,
    somebody else keeps each authority the target has, and a successor is named
    exactly if the target owns Open Works, another active member each time.
   */
  lemma RemovalIff(s: State, command: RemoveCommand)
    requires Normalize(command.key, MAX_KEY).Some? && command.space in s.spaces
    requires RemovalKey(command.space, command.actor, Normalize(command.key, MAX_KEY).value) !in s.byRemoval
    ensures RemoveMember(s, command).1.Ok? <==> Removable(s, command)
  {
    hide Normalize, Managers, Enrollers, OpenWorksOf, OwnsWork, OthersManage, OthersEnroll, Transfer, RemoveAgents,
      ActiveAgentsOfOwner;
    LastAuthority(s, command.space, command.target);
    OwnsWorkIff(s, MemberKey(command.space, command.target));
  }

  // ----- Invitations -----

  /** A live Session, freshly proved by Email, of the User who owns the invited address. */
  predicate ProvedRecipient(user: Id, recipient: Recipient, now: int) {
    && recipient.userExists && recipient.emailOwner == Some(user)
    && recipient.session.Some?
    && var session := recipient.session.value;
       && session.user == user && !session.revoked && now < session.expiresAt
       && session.emailProof && now < session.provedAt + PROOF_LIFETIME
  }

  /** An open invitation is accepted exactly by its proved recipient, in time, unless they were once removed. */
  lemma AcceptanceIff(s: State, command: AcceptCommand, recipient: Recipient, now: int)
    requires TrimSpace(command.key) != [] && |command.key| <= MAX_KEY
    requires command.invitation in s.invitations && s.invitations[command.invitation].acceptance.None?
    requires s.invitations[command.invitation].space in s.spaces
    ensures AcceptInvitation(s, command, recipient, now).1.Ok? <==>
      var invitation := s.invitations[command.invitation];
      && ProvedRecipient(command.user, recipient, now)
      && !invitation.revoked && now < invitation.expiresAt
      && (MemberKey(invitation.space, command.user) in s.members ==> Active(s, MemberKey(invitation.space, command.user)))
  {
    hide TrimSpace;
  }

  // ----- Machine revocation -----

  /** `t` is `s` with exactly this Machine revoked and exactly its Agents ended. */
  ghost predicate OnlyRevoked(s: State, t: State, machine: Id) {
    && machine in s.machines && t.machines.Keys == s.machines.Keys && t.machines[machine].revocation.Some?
    && t == s.(machines := t.machines, agents := t.agents, presence := t.presence)
    && (forall m :: m in s.machines && m != machine ==> t.machines[m] == s.machines[m])
    && t.agents.Keys == s.agents.Keys
    && (forall a :: a in s.agents ==>
          t.agents[a] == s.agents[a].(removed := s.agents[a].removed || s.agents[a].machine == machine))
  }

  lemma RevokeIsOnly(s: State, machine: Id, revocation: Revocation)
    requires machine in s.machines
    ensures OnlyRevoked(s, Revoke(s, machine, revocation), machine)
  {}

  /** On a revoked Machine every Agent has already ended. */
  lemma RevokedIsOnly(s: State, machine: Id)
    requires Housed(s) && machine in s.machines && s.machines[machine].revocation.Some?
    ensures OnlyRevoked(s, s, machine)
  {
    forall a | a in s.agents
      ensures s.agents[a] == s.agents[a].(removed := s.agents[a].removed || s.agents[a].machine == machine)
    {
      assert HousedAgent(s, s.agents[a]);
    }
  }

  /**
    Whoever revokes a Machine, first or again, it ends revoked with all its Agents
    removed, and no other Machine, Agent, membership or Work is touched. Any
    active enroller of its Space may do it, and nobody else from a browser.
   */
  lemma RevocationEndsAgents(trace: Trace, command: RevokeCommand, session: Option<Id>, host: SelfRevokeCommand)
    requires Reachable(trace)
    ensures RevokeFromBrowser(trace.rows, command, session).1.Ok? ==>
      && session.Some? && ActiveEnroller(trace.rows, command.space, session.value)
      && command.machine in trace.rows.machines && trace.rows.machines[command.machine].space == command.space
      && OnlyRevoked(trace.rows, RevokeFromBrowser(trace.rows, command, session).0, command.machine)
    ensures RevokeFromHost(trace.rows, host).1.Ok? ==>
      && host.machine in trace.rows.machines && trace.rows.machines[host.machine].serial == host.serial
      && OnlyRevoked(trace.rows, RevokeFromHost(trace.rows, host).0, host.machine)
  {
    hide Reachable, Inv, Housed, Revoke, UserRevocationTaken, ActiveEnroller, OnlyRevoked;
    ReachableInv(trace);
    InvRows(trace);
    var s := trace.rows;
    if command.machine in s.machines {
      if s.machines[command.machine].revocation.Some? {
        RevokedIsOnly(s, command.machine);
      } else if session.Some? {
        RevokeIsOnly(s, command.machine, ByUser(session.value, command.key, command.digest));
      }
    }
    if host.machine in s.machines {
      if s.machines[host.machine].revocation.Some? {
        RevokedIsOnly(s, host.machine);
      } else {
        RevokeIsOnly(s, host.machine, ByMachine(host.key, host.digest));
      }
    }
  }

  /** A revoked Machine never reports again, keeps the record of who revoked it, and never has an active Agent. */
  lemma RevokedForGood(trace: Trace, ops: seq<Op>, command: Command, path: Path, ids: seq<Id>, agent: Id)
    requires Reachable(trace) && command.machine in trace.rows.machines
    requires trace.rows.machines[command.machine].revocation.Some?
    ensures var t := Run(trace, ops).rows;
      && command.machine in t.machines
      && t.machines[command.machine].revocation == trace.rows.machines[command.machine].revocation
      && Reconcile(t, command, path, ids).0 == t && Reconcile(t, command, path, ids).1.Err?
      && (agent in t.agents && t.agents[agent].machine == command.machine ==> t.agents[agent].removed)
  {
    hide Reachable, Run, Inv, Evolves, Housed, Allocate, ReplacePresence;
    ReachableInv(trace);
    RunKeepsInv(trace, ops);
    InvRows(Run(trace, ops));
    RevocationStays(trace.rows, Run(trace, ops).rows, command.machine);
    RevokedIsOnly(Run(trace, ops).rows, command.machine);
  }

  lemma RevocationStays(s: State, t: State, machine: Id)
    requires Evolves(s, t) && machine in s.machines && s.machines[machine].revocation.Some?
    ensures machine in t.machines && t.machines[machine].revocation == s.machines[machine].revocation
  {
    assert MachineAdvances(s.machines[machine], t.machines[machine]);
  }

  // ----- Reports -----

  /** Every Machine is in a Space that exists. */
  ghost predicate Located(s: State) {
    forall m {:trigger m in s.machines} :: m in s.machines ==> s.machines[m].space in s.spaces
  }

  /** Only a connection adds Machines, and only in an existing Space. */
  lemma NewMachinesLocated(trace: Trace, op: Op, m: Id)
    requires m in Step(trace, op).rows.machines && m !in trace.rows.machines
    ensures Step(trace, op).rows.machines[m].space in trace.rows.spaces
  {
    hide Reconcile, Applies, PreRead, RemoveMember, Revoke, TrimSpace, SerialTaken, Active, UserRevocationTaken, ActiveEnroller;
    match op
    case OpReconcile(ticket, ids) =>
      if ticket in trace.pending {
        var pending := trace.pending[ticket];
        ReportProtocol.FinishedResult(trace.rows, pending.command, pending.path, ids);
      }
    case OpRemove(remove) => ReportProtocol.RemovalKeepsReports(trace.rows, remove);
    case OpRevokeFromBrowser(revoke, session) => RevocationKeepsKeys(trace.rows, op);
    case OpRevokeFromHost(selfRevoke) => RevocationKeepsKeys(trace.rows, op);
    case _ =>
  }

  lemma RevocationKeepsKeys(s: State, op: Op)
    requires op.OpRevokeFromBrowser? || op.OpRevokeFromHost?
    ensures Apply(s, op).machines.Keys == s.machines.Keys
  {
    hide Revoke, UserRevocationTaken, ActiveEnroller, OnlyRevoked;
    if op.OpRevokeFromBrowser? && op.revoke.machine in s.machines && op.session.Some? {
      RevokeKeepsKeys(s, op.revoke.machine, ByUser(op.session.value, op.revoke.key, op.revoke.digest));
    }
    if op.OpRevokeFromHost? && op.selfRevoke.machine in s.machines {
      RevokeKeepsKeys(s, op.selfRevoke.machine, ByMachine(op.selfRevoke.key, op.selfRevoke.digest));
    }
  }

  lemma RevokeKeepsKeys(s: State, machine: Id, revocation: Revocation)
    requires machine in s.machines
    ensures Revoke(s, machine, revocation).machines.Keys == s.machines.Keys
  {}

  lemma StaysLocated(s: State, t: State)
    requires Located(s) && Evolves(s, t)
    requires forall m :: m in t.machines && m !in s.machines ==> t.machines[m].space in s.spaces
    ensures Located(t)
  {
    hide AgentsAdvance, MembersAdvance, WorksKept, RemovalsKept;
    forall m | m in t.machines ensures t.machines[m].space in t.spaces {
      if m in s.machines { assert MachineAdvances(s.machines[m], t.machines[m]); }
    }
  }

  lemma {:induction false} RunStaysLocated(ops: seq<Op>)
    ensures Inv(Run(EMPTY, ops)) && Located(Run(EMPTY, ops).rows)
    decreases |ops|
  {
    hide Inv, Evolves, Step, Located;
    if ops == [] {
      EmptyInv();
      EmptyLocated();
    } else {
      var earlier, op := Run(EMPTY, ops[..|ops| - 1]), ops[|ops| - 1];
      RunStaysLocated(ops[..|ops| - 1]);
      StepKeepsInv(earlier, op);
      forall m | m in Step(earlier, op).rows.machines && m !in earlier.rows.machines
        ensures Step(earlier, op).rows.machines[m].space in earlier.rows.spaces
      {
        NewMachinesLocated(earlier, op, m);
      }
      StaysLocated(earlier.rows, Step(earlier, op).rows);
    }
  }

  lemma ReachableLocated(trace: Trace)
    requires Reachable(trace)
    ensures Inv(trace) && Located(trace.rows)
  {
    hide Inv, Run, Located;
    var ops :| trace == Run(EMPTY, ops);
    RunStaysLocated(ops);
  }

  lemma EmptyLocated()
    ensures Located(EMPTY.rows)
  {}

  /** Enough identities that nobody has, for a list of observations. */
  ghost predicate FreshIds(s: State, ids: seq<Id>) {
    && (forall i, j :: 0 <= i < j < |ids| ==> ids[i] != ids[j])
    && (forall i :: 0 <= i < |ids| ==> ids[i] !in s.agents && ids[i] !in s.presence)
  }

  /** The 64-bit ordinals are not exhausted, and every family's name base is a valid one. */
  ghost predicate Nameable(s: State, space: Id, recognized: seq<Recognized>) {
    && |TakenKeys(s, space)| + |recognized| < 0x7FFF_FFFF_FFFF_FFFF
    && forall i :: 0 <= i < |recognized| ==> ValidName(recognized[i].nameBase, MAX_NAME_BASE)
  }

  lemma OneMoreName(s: State, space: Id, key: Bytes, id: Id, other: Id)
    ensures var t := s.(byName := s.byName[AgentNameKey(space, key) := id]);
      |TakenKeys(t, other)| <= |TakenKeys(s, other)| + 1
  {
    var t := s.(byName := s.byName[AgentNameKey(space, key) := id]);
    var names := TakenKeys(s, other) + {key};
    assert TakenKeys(t, other) <= names;
    SubsetSize(TakenKeys(t, other), names);
  }

  lemma AllocateOneSucceeds(s: State, machine: Id, path: Path, observation: Recognized, id: Id)
    requires id !in s.agents && id !in s.presence && ValidName(observation.nameBase, MAX_NAME_BASE)
    requires |TakenKeys(s, path.space)| < 0x7FFF_FFFF_FFFF_FFFF
    ensures AllocateOne(s, machine, path, observation, Some(id)).Ok?
    ensures var t := AllocateOne(s, machine, path, observation, Some(id)).value;
      && |TakenKeys(t, path.space)| <= |TakenKeys(s, path.space)| + 1
      && t.agents.Keys <= s.agents.Keys + {id} && t.presence.Keys <= s.presence.Keys + {id}
  {
    hide AllocatedName, TakenKeys, ValidName;
    AllocatesLeastFree(observation.nameBase, TakenKeys(s, path.space));
    var name := AllocatedName(observation.nameBase, TakenKeys(s, path.space)).value;
    OneMoreName(s, path.space, name.key, id, path.space);
    SameNames(s.(byName := s.byName[AgentNameKey(path.space, name.key) := id]),
              AllocateOne(s, machine, path, observation, Some(id)).value, path.space);
  }

  lemma SameNames(s: State, t: State, space: Id)
    ensures s.byName == t.byName ==> TakenKeys(s, space) == TakenKeys(t, space)
  {}

  lemma {:induction false} AllocationSucceeds(s: State, machine: Id, path: Path, active: bool,
                                             recognized: seq<Recognized>, ids: seq<Id>, n: nat)
    requires n <= |recognized| <= |ids| && FreshIds(s, ids) && Nameable(s, path.space, recognized)
    ensures Allocate(s, machine, path, active, recognized, ids, n).Ok?
    ensures var t := Allocate(s, machine, path, active, recognized, ids, n).value;
      && |TakenKeys(t, path.space)| <= |TakenKeys(s, path.space)| + n
      && (forall a :: a in t.agents || a in t.presence ==>
            a in s.agents || a in s.presence || exists i :: 0 <= i < n && ids[i] == a)
  {
    hide TakenKeys, ValidName, AllocateOne;
    if n > 0 {
      AllocationSucceeds(s, machine, path, active, recognized, ids, n - 1);
      var t := Allocate(s, machine, path, active, recognized, ids, n - 1).value;
      if active {
        AllocateOneSucceeds(t, machine, path, recognized[n - 1], ids[n - 1]);
        var u := Allocate(s, machine, path, active, recognized, ids, n).value;
        forall a | a in u.agents || a in u.presence
          ensures a in s.agents || a in s.presence || exists i :: 0 <= i < n && ids[i] == a
        {
          if a == ids[n - 1] { assert 0 <= n - 1 < n && ids[n - 1] == a; }
        }
      }
    }
  }

  /**
    With fresh identities a report in flight is applied exactly when its Machine
    is known by that certificate and unrevoked, it is not the report applied last,
    and it was based on the current revision: allocation never stands in its way.
   */
  lemma CurrentReportApplies(trace: Trace, ticket: Id, ids: seq<Id>)
    requires Reachable(trace) && ticket in trace.pending
    requires var Pending(command, path) := trace.pending[ticket];
      |command.recognized| <= |ids| && FreshIds(trace.rows, ids) && Nameable(trace.rows, path.space, command.recognized)
    ensures var Pending(command, path) := trace.pending[ticket];
      Applies(trace.rows, command, path, ids) <==>
        && command.machine in trace.rows.machines
        && var machine := trace.rows.machines[command.machine];
           && machine.serial == command.serial && machine.revocation.None? && machine.revision == command.base
           && !(machine.last.Some? && machine.last.value.id == command.report)
  {
    hide Reachable, Run, Allocate, ReplacePresence, Record, SetupRequired, FreshIds, Nameable, ApproverActive, RowInv,
      PresenceRefines;
    ReachableLocated(trace);
    PendingSound(trace, ticket);
    var Pending(command, path) := trace.pending[ticket];
    AllocationSucceeds(trace.rows, command.machine, path, ApproverActive(trace.rows, path), command.recognized, ids,
                       |command.recognized|);
  }
}
