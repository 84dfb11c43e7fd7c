/** The global guarantees of the authority lifecycles, over every run. */
module AuthorityTheorems {
  import opened Wrappers
  import opened Ids
  import opened Text
  import opened AgentKeys
  import opened AgentName
  import opened ReportCommand
  import opened Authority
  import opened AuthorityInvariant
  import opened AuthorityRuns

  // ----- Runs -----

  lemma ApplyKeeps(s: State, op: Op, accepted: map<Id, seq<Recognized>>)
    requires RowInv(s) && PresenceRows(s) && PresenceRefines(s, accepted)
    ensures Keeps(s, Apply(s, op), accepted)
  {
    hide RowInv, PresenceRefines, Evolves, CreateSpace, AcceptInvitation, RemoveMember, ConnectMachine,
      RevokeFromBrowser, RevokeFromHost, OpenWork, PresenceRows;
    match op
    case OpCreateSpace(create, userExists, slugTaken) => CreateSpaceKeeps(s, create, userExists, slugTaken, accepted);
    case OpInvite(invitation, offer) => InviteKeeps(s, Apply(s, op).invitations, accepted);
    case OpAccept(accept, recipient, now) => AcceptKeeps(s, accept, recipient, now, accepted);
    case OpRemove(remove) => RemoveMemberKeeps(s, remove, accepted);
    case OpConnect(connect) => ConnectKeeps(s, connect, accepted);
    case OpRevokeFromBrowser(revoke, session) => RevokeFromBrowserKeeps(s, revoke, session, accepted);
    case OpRevokeFromHost(selfRevoke) => RevokeFromHostKeeps(s, selfRevoke, accepted);
    case OpOpenWork(owner, work) => OpenWorkKeeps(s, owner, work, accepted);
    case OpPreRead(_, _) => EvolvesReflexive(s);
    case OpReconcile(_, _) => EvolvesReflexive(s);
  }

  lemma PathsStaySound(trace: Trace, t: State)
    requires PathsSound(trace) && Evolves(trace.rows, t)
    ensures PathsSound(trace.(rows := t))
  {
    hide PathSound, MachinesAdvance, AgentsAdvance, MembersAdvance;
    forall ticket | ticket in trace.pending ensures PathSound(t, trace.pending[ticket]) {
      PathStaysSound(trace.rows, t, trace.pending[ticket]);
    }
  }

  lemma PreReadIsSoundNow(s: State, command: Command)
    requires PreRead(s, command).Ok?
    ensures PathSound(s, Pending(command, PreRead(s, command).value))
  {}

  lemma StepKeepsInv(trace: Trace, op: Op)
    requires Inv(trace)
    ensures Inv(Step(trace, op)) && Evolves(trace.rows, Step(trace, op).rows)
  {
    hide RowInv, PresenceRefines, Evolves, PathSound, Apply, Reconcile, Applies, PreRead;
    RowInvPresence(trace.rows);
    match op
    case OpPreRead(ticket, command) =>
      EvolvesReflexive(trace.rows);
      if PreRead(trace.rows, command).Ok? {
        PreReadIsSoundNow(trace.rows, command);
      }
    case OpReconcile(ticket, ids) =>
      EvolvesReflexive(trace.rows);
      if ticket in trace.pending {
        var pending := trace.pending[ticket];
        ReconcileKeeps(trace.rows, pending.command, pending.path, ids, trace.accepted);
        PathsStaySound(trace, Step(trace, op).rows);
        RowInvPresence(Step(trace, op).rows);
      }
    case _ =>
      ApplyKeeps(trace.rows, op, trace.accepted);
      PathsStaySound(trace, Apply(trace.rows, op));
      RowInvPresence(Apply(trace.rows, op));
  }

  lemma RowInvPresence(s: State)
    requires RowInv(s)
    ensures PresenceRows(s)
  {}

  lemma EmptyInv()
    ensures Inv(EMPTY)
  {}

  lemma {:induction false} RunKeepsInv(trace: Trace, ops: seq<Op>)
    requires Inv(trace)
    ensures Inv(Run(trace, ops)) && Evolves(trace.rows, Run(trace, ops).rows)
    decreases |ops|
  {
    hide Inv, Evolves, Step;
    if ops == [] {
      EvolvesReflexive(trace.rows);
    } else {
      var init := ops[..|ops| - 1];
      RunKeepsInv(trace, init);
      StepKeepsInv(Run(trace, init), ops[|ops| - 1]);
      EvolvesTransitive(trace.rows, Run(trace, init).rows, Run(trace, ops).rows);
    }
  }

  /** A trace some run ends in. */
  ghost predicate Reachable(trace: Trace) {
    exists ops :: trace == Run(EMPTY, ops)
  }

  lemma ReachableInv(trace: Trace)
    requires Reachable(trace)
    ensures Inv(trace)
  {
    hide Inv, Run;
    EmptyInv();
    var ops :| trace == Run(EMPTY, ops);
    RunKeepsInv(EMPTY, ops);
  }

  /** The reachable traces are closed under every transaction, and start empty. */
  lemma StepsAreReachable(trace: Trace, op: Op)
    ensures Reachable(EMPTY) && (Reachable(trace) ==> Reachable(Step(trace, op)))
  {
    hide Step;
    assert EMPTY == Run(EMPTY, []);
    if Reachable(trace) {
      var ops :| trace == Run(EMPTY, ops);
      assert (ops + [op])[..|ops|] == ops;
      assert Step(trace, op) == Run(EMPTY, ops + [op]);
    }
  }

  // ----- Agents -----

  /**
    The unlocked pre-read is sound: when it reported that no allocation was
    needed, the transaction inserts no Agent, however long it waited for its locks.
   */
  lemma NoInsertWithoutAllocationLocks(trace: Trace, ticket: Id, ids: seq<Id>)
    requires Reachable(trace) && ticket in trace.pending && !trace.pending[ticket].path.needsAllocation
    ensures var Pending(command, path) := trace.pending[ticket];
      var t := Reconcile(trace.rows, command, path, ids).0;
      t.agents == trace.rows.agents && t.byBinding == trace.rows.byBinding && t.byName == trace.rows.byName
  {
    hide Inv, Reachable, Allocate, Arbitrate, SetupRequired, SetPresent;
    ReachableInv(trace);
    var Pending(command, path) := trace.pending[ticket];
    PendingSound(trace, ticket);
    NoAllocationWhenBound(trace.rows, command.machine, path, ApproverActive(trace.rows, path), command.recognized, ids,
                          |command.recognized|);
  }

  lemma PendingSound(trace: Trace, ticket: Id)
    requires Inv(trace) && ticket in trace.pending
    ensures PathSound(trace.rows, trace.pending[ticket])
  {}

  /**
    Every active Agent belongs to an active member of its Space and lives on that
    member's unrevoked Machine.
   */
  lemma ActiveAgentsAreHoused(trace: Trace, a: Id)
    requires Reachable(trace) && a in trace.rows.agents && !trace.rows.agents[a].removed
    ensures var agent := trace.rows.agents[a];
      && Active(trace.rows, MemberKey(agent.space, agent.owner))
      && agent.machine in trace.rows.machines
      && var machine := trace.rows.machines[agent.machine];
         machine.revocation.None? && machine.enroller == agent.owner && machine.space == agent.space
  {
    hide Reachable;
    ReachableInv(trace);
    assert HousedAgent(trace.rows, trace.rows.agents[a]);
  }

  /**
    An active Agent is stored as present exactly when the last accepted report of
    its Machine lists its binding as present; a removed Agent never is.
   */
  lemma PresenceIsTheLastSnapshot(trace: Trace, a: Id)
    requires Reachable(trace) && a in trace.rows.agents
    ensures a in trace.rows.presence
    ensures trace.rows.presence[a] <==>
      !trace.rows.agents[a].removed && Listed(trace.accepted, BindingOf(trace.rows.agents[a]))
  {
    hide Reachable, Listed;
    ReachableInv(trace);
    hide Names, Bindings, Housed, WorksOwned, AllGoverned, RemovalsIndexed, PathsSound;
  }

  /** A binding never gets a second Agent, and a removed Agent never comes back. */
  lemma BindingsAreForever(trace: Trace, a: Id, ops: seq<Op>, b: Id)
    requires Reachable(trace) && a in trace.rows.agents
    requires b in Run(trace, ops).rows.agents
    ensures a in Run(trace, ops).rows.agents
    ensures BindingOf(Run(trace, ops).rows.agents[b]) == BindingOf(trace.rows.agents[a]) ==> b == a
    ensures trace.rows.agents[a].removed ==>
      Run(trace, ops).rows.agents[a].removed && a in Run(trace, ops).rows.presence && !Run(trace, ops).rows.presence[a]
  {
    hide Reachable, Run, Step;
    ReachableInv(trace);
    RunKeepsInv(trace, ops);
    hide Names, Housed, WorksOwned, AllGoverned, RemovalsIndexed, PathsSound, PresenceRefines;
  }

  /** Agent names stay unique in a Space forever, counting removed Agents. */
  lemma NamesAreForever(trace: Trace, a: Id, ops: seq<Op>, b: Id)
    requires Reachable(trace) && a in trace.rows.agents
    requires b in Run(trace, ops).rows.agents
    ensures a in Run(trace, ops).rows.agents && Run(trace, ops).rows.agents[a].name == trace.rows.agents[a].name
    ensures NameKeyOf(Run(trace, ops).rows.agents[b]) == NameKeyOf(trace.rows.agents[a]) ==> b == a
  {
    hide Reachable, Run, Step;
    ReachableInv(trace);
    RunKeepsInv(trace, ops);
    hide Bindings, Housed, WorksOwned, AllGoverned, RemovalsIndexed, PathsSound, PresenceRefines;
  }

  /**
    An applied report leaves no observation behind: each binding has its Agent, or
    the approver is no longer a member and its family is asked to be set up again.
   */
  lemma EveryObservationIsAnswered(trace: Trace, ticket: Id, ids: seq<Id>, i: nat)
    requires Reachable(trace) && ticket in trace.pending
    requires var Pending(command, path) := trace.pending[ticket]; Applies(trace.rows, command, path, ids)
    requires i < |trace.pending[ticket].command.recognized|
    ensures var Pending(command, path) := trace.pending[ticket];
      var (t, r) := Reconcile(trace.rows, command, path, ids);
      var binding := command.recognized[i].binding;
      && (ApproverActive(trace.rows, path) ==> Bound(t, command.machine, binding) && r.value.setupRequired == [])
      && (!ApproverActive(trace.rows, path) ==>
            && !Active(trace.rows, MemberKey(path.space, path.enroller))
            && (Bound(t, command.machine, binding) || binding.adapter in r.value.setupRequired))
  {
    hide Reachable, Inv, RowInv, PathSound, Allocate, Arbitrate, Allocates, SetPresent, SortedKeys, Bound;
    ReachableInv(trace);
    InvRows(trace);
    PendingSound(trace, ticket);
    var Pending(command, path) := trace.pending[ticket];
    ReportAllocates(trace.rows, command, path, ids);
    BoundOnlyBinds(command, path, trace.rows, ids);
    if !ApproverActive(trace.rows, path) && !Bound(trace.rows, command.machine, command.recognized[i].binding) {
      MissingExact(trace.rows, command.machine, command.recognized, i);
      SortedKeysExact(MissingAdapters(trace.rows, command.machine, command.recognized));
    }
  }

  lemma InvRows(trace: Trace)
    requires Inv(trace)
    ensures RowInv(trace.rows)
  {}

  lemma BoundOnlyBinds(command: Command, path: Path, s: State, ids: seq<Id>)
    requires Applies(s, command, path, ids)
    ensures var r := Allocate(s, command.machine, path, ApproverActive(s, path), command.recognized, ids, |command.recognized|);
      r.Ok? && forall b {:trigger Bound(r.value, command.machine, b)} ::
        Bound(r.value, command.machine, b) <==> Bound(Reconcile(s, command, path, ids).0, command.machine, b)
  {
    hide Allocate, Arbitrate, SetPresent, SetupRequired;
  }

  lemma {:induction false} MissingExact(s: State, machine: Id, recognized: seq<Recognized>, i: nat)
    requires i < |recognized| && !Bound(s, machine, recognized[i].binding)
    ensures recognized[i].binding.adapter in MissingAdapters(s, machine, recognized)
  {
    hide Bound;
    if i < |recognized| - 1 {
      MissingExact(s, machine, recognized[..|recognized| - 1], i);
    }
  }

  lemma {:induction false} MissingWithin(s: State, machine: Id, recognized: seq<Recognized>)
    ensures |MissingAdapters(s, machine, recognized)| <= |recognized|
    ensures forall key :: key in MissingAdapters(s, machine, recognized) ==>
      exists i :: 0 <= i < |recognized| && recognized[i].binding.adapter == key
  {
    hide Bound;
    if recognized != [] {
      var n := |recognized| - 1;
      MissingWithin(s, machine, recognized[..n]);
      forall key | key in MissingAdapters(s, machine, recognized)
        ensures exists i :: 0 <= i < |recognized| && recognized[i].binding.adapter == key
      {
        if key in MissingAdapters(s, machine, recognized[..n]) {
          var i :| 0 <= i < n && recognized[..n][i].binding.adapter == key;
          assert recognized[i].binding.adapter == key;
        } else {
          assert recognized[n].binding.adapter == key;
        }
      }
    }
  }

  /** The recovery keys of a fresh result pass the Host's own check. */
  lemma ResultIsAcceptable(s: State, request: Request, vocabulary: Vocabulary, path: Path, ids: seq<Id>)
    requires Canonical(request, vocabulary).Ok? && Applies(s, Canonical(request, vocabulary).value, path, ids)
    ensures var r := Reconcile(s, Canonical(request, vocabulary).value, path, ids).1.value;
      r.revision > 0 && ValidReportKeys(r.unsupported) && ValidReportKeys(r.setupRequired)
  {
    hide Canonical, Allocate, Arbitrate, SetPresent, SortedKeys, ApproverActive, ValidReportKeys, RecognizesExactly;
    var command := Canonical(request, vocabulary).value;
    CommandShape(request, vocabulary);
    var missing := MissingAdapters(s, command.machine, command.recognized);
    MissingWithin(s, command.machine, command.recognized);
    SortedKeysExact(missing);
    SortedKeysLength(missing);
    SetupAcceptable(command.recognized, missing);
    EmptyAcceptable();
  }

  lemma EmptyAcceptable()
    ensures ValidReportKeys([])
  {}

  lemma SetupAcceptable(recognized: seq<Recognized>, missing: seq<Bytes>)
    requires |missing| <= |recognized| <= MAX_KEYS
    requires forall r :: r in recognized ==> ValidAdapterKey(r.binding.adapter)
    requires forall key :: key in missing ==> exists i :: 0 <= i < |recognized| && recognized[i].binding.adapter == key
    ensures ValidReportKeys(SortedKeys(missing))
  {
    hide Before, ValidAdapterKey, SortedKeys;
    SortedKeysExact(missing);
    SortedKeysLength(missing);
    var keys := SortedKeys(missing);
    forall i | 0 <= i < |keys| ensures ValidAdapterKey(keys[i]) {
      assert keys[i] in keys;
      var j :| 0 <= j < |recognized| && recognized[j].binding.adapter == keys[i];
      assert recognized[j] in recognized;
    }
  }

  // ----- Members -----

  /** Every Space keeps an active member manager and an active Machine enroller. */
  lemma SpacesStayGoverned(trace: Trace, space: Id)
    requires Reachable(trace) && space in trace.rows.spaces
    ensures exists u :: ActiveManager(trace.rows, space, u)
    ensures exists u :: ActiveEnroller(trace.rows, space, u)
  {
    hide Reachable;
    ReachableInv(trace);
    assert Governed(trace.rows, space);
  }

  /** Every Open Work is owned by an active member of its Space. */
  lemma OpenWorksStayOwned(trace: Trace, work: Id)
    requires Reachable(trace) && work in trace.rows.works
    ensures Active(trace.rows, MemberKey(trace.rows.works[work].space, trace.rows.works[work].owner))
  {
    hide Reachable, Active;
    ReachableInv(trace);
  }

  /** A revoked membership never becomes active again. */
  lemma RevokedForever(trace: Trace, member: Member, ops: seq<Op>)
    requires Reachable(trace) && member in trace.rows.members && trace.rows.members[member].removal.Some?
    ensures member in Run(trace, ops).rows.members
    ensures Run(trace, ops).rows.members[member] == trace.rows.members[member]
    ensures !Active(Run(trace, ops).rows, member)
  {
    hide Reachable, Run, Step, Inv;
    ReachableInv(trace);
    RunKeepsInv(trace, ops);
  }

  /**
    A removal that is not a replay conserves the Open Works: the same Works stay
    in the same Spaces, exactly the target's change owner, and they go to the
    active successor. The target's Agents, and only those, are removed.
   */
  lemma RemovalConserves(trace: Trace, command: RemoveCommand)
    requires Reachable(trace) && RemoveMember(trace.rows, command).1.Ok?
    requires RemovalKey(command.space, command.actor, Normalize(command.key, MAX_KEY).value) !in trace.rows.byRemoval
    ensures var s, t := trace.rows, RemoveMember(trace.rows, command).0;
      var target := MemberKey(command.space, command.target);
      && t.works.Keys == s.works.Keys
      && (forall w :: w in s.works ==>
            if MemberKey(s.works[w].space, s.works[w].owner) == target
            then
              && command.successor.Some? && t.works[w] == Work(command.space, command.successor.value)
              && Active(t, MemberKey(command.space, command.successor.value))
            else t.works[w] == s.works[w])
      && (forall m {:trigger Active(t, m)} :: Active(t, m) <==> Active(s, m) && m != target)
      && t.agents.Keys == s.agents.Keys
      && (forall a :: a in s.agents ==>
            t.agents[a].removed == (s.agents[a].removed || MemberKey(s.agents[a].space, s.agents[a].owner) == target))
  {
    hide Reachable, Normalize, RemovalRefused, Removed, Active;
    var s := trace.rows;
    var key := Normalize(command.key, MAX_KEY).value;
    RemovalIs(s, command);
    RemovalWorks(s, command, key);
    forall w | w in s.works && MemberKey(s.works[w].space, s.works[w].owner) == MemberKey(command.space, command.target)
      ensures command.successor.Some? && Active(Removed(s, command, key), MemberKey(command.space, command.successor.value))
    {
      RemovalSuccessor(s, command, w);
      RemovalActives(s, command, key, MemberKey(command.space, command.successor.value));
    }
    forall m {:trigger Active(Removed(s, command, key), m)}
      ensures Active(Removed(s, command, key), m) <==> Active(s, m) && m != MemberKey(command.space, command.target)
    {
      RemovalActives(s, command, key, m);
    }
  }

  lemma RemovalIs(s: State, command: RemoveCommand)
    requires RemoveMember(s, command).1.Ok?
    requires RemovalKey(command.space, command.actor, Normalize(command.key, MAX_KEY).value) !in s.byRemoval
    ensures RemovalRefused(s, command).None? && command.space in s.spaces
    ensures RemoveMember(s, command).0 == Removed(s, command, Normalize(command.key, MAX_KEY).value)
  {
    hide Normalize, RemovalRefused, Transfer, RemoveAgents;
    assert RemovalRefused(s, command).None?;
  }

  /**
    An acceptance leaves an active member: one who was already there keeps their
    rights, a new one gets the invitation's. No other membership changes, and a
    removed member is refused.
   */
  lemma AcceptanceJoins(s: State, command: AcceptCommand, recipient: Recipient, now: int)
    requires AcceptInvitation(s, command, recipient, now).1.Ok?
    ensures command.invitation in s.invitations
    ensures var t := AcceptInvitation(s, command, recipient, now).0;
      var invitation := s.invitations[command.invitation];
      var member := MemberKey(invitation.space, command.user);
      && Active(t, member)
      && (member in s.members ==> t.members[member] == s.members[member] && Active(s, member))
      && (member !in s.members ==> t.members[member] == Membership(invitation.manages, invitation.enrolls, None))
      && (forall other :: other in s.members ==> other in t.members && t.members[other] == s.members[other])
      && command.invitation in t.invitations && t.invitations[command.invitation].acceptance.Some?
      && t.invitations[command.invitation].acceptance.value.user == command.user
      && recipient.emailOwner == Some(command.user)
  {
    hide TrimSpace, AcceptLocked, Active, OnInvitation;
    LockedAcceptance(s, command, recipient.session.value, now);
  }

  /** What a successful acceptance leaves, from its Membership lock on. */
  lemma LockedAcceptance(s: State, command: AcceptCommand, session: Session, now: int)
    requires command.invitation in s.invitations
    requires AcceptLocked(s, command, session, s.invitations[command.invitation], now).1.Ok?
    requires !s.invitations[command.invitation].revoked
    requires s.invitations[command.invitation].acceptance.Some? ==>
      var acceptance := s.invitations[command.invitation].acceptance.value;
      acceptance.user == command.user && acceptance.key == command.key && acceptance.digest == command.digest
    ensures var (t, r) := AcceptLocked(s, command, session, s.invitations[command.invitation], now);
      var invitation := s.invitations[command.invitation];
      var member := MemberKey(invitation.space, command.user);
      && Active(t, member)
      && (member in s.members ==> t.members[member] == s.members[member] && Active(s, member))
      && (member !in s.members ==> t.members[member] == Membership(invitation.manages, invitation.enrolls, None))
      && (forall other :: other in s.members ==> other in t.members && t.members[other] == s.members[other])
      && OnInvitation(t, command, r.value) && t.invitations[command.invitation].space == invitation.space
  {}

  /** Accepted invitations and creation keys stay exactly as they are. */
  ghost predicate AcceptancesKept(s: State, t: State) {
    && (forall i {:trigger i in s.invitations} :: i in s.invitations && s.invitations[i].acceptance.Some? ==>
          i in t.invitations && t.invitations[i] == s.invitations[i])
    && (forall k {:trigger k in s.byCreation} :: k in s.byCreation ==> k in t.byCreation && t.byCreation[k] == s.byCreation[k])
  }

  lemma AcceptKeepsAcceptances(s: State, command: AcceptCommand, recipient: Recipient, now: int)
    ensures AcceptancesKept(s, AcceptInvitation(s, command, recipient, now).0)
  {
    hide TrimSpace, AcceptLocked;
    if command.invitation in s.invitations && recipient.session.Some? {
      LockedChange(s, command, recipient.session.value, now);
    }
  }

  lemma LockedChange(s: State, command: AcceptCommand, session: Session, now: int)
    requires command.invitation in s.invitations
    ensures var t := AcceptLocked(s, command, session, s.invitations[command.invitation], now).0;
      || t == s
      || (command.invitation in t.invitations && t.byCreation == s.byCreation && s.invitations[command.invitation].acceptance.None?
          && t.invitations == s.invitations[command.invitation := t.invitations[command.invitation]])
  {}

  lemma ReconcileKeepsInvitations(s: State, command: Command, path: Path, ids: seq<Id>)
    ensures Reconcile(s, command, path, ids).0.invitations == s.invitations
    ensures Reconcile(s, command, path, ids).0.byCreation == s.byCreation
  {
    hide Arbitrate, Allocate, ApproverActive, SetupRequired, SetPresent;
  }

  lemma RevocationKeepsInvitations(s: State, op: Op)
    requires op.OpRevokeFromBrowser? || op.OpRevokeFromHost?
    ensures Apply(s, op).invitations == s.invitations
    ensures Apply(s, op).byCreation == s.byCreation
  {
    hide ActiveAgentsOfMachine, UserRevocationTaken, ActiveEnroller;
  }

  lemma RemovalKeepsInvitations(s: State, command: RemoveCommand)
    ensures RemoveMember(s, command).0.invitations == s.invitations
    ensures RemoveMember(s, command).0.byCreation == s.byCreation
  {
    hide RemovalRefused, Normalize, ActiveAgentsOfOwner;
  }

  lemma StepKeepsAcceptances(trace: Trace, op: Op)
    ensures AcceptancesKept(trace.rows, Step(trace, op).rows)
  {
    hide AcceptInvitation, Reconcile, RemoveMember, RevokeFromBrowser, RevokeFromHost, PreRead, Applies, SerialTaken, Active;
    match op
    case OpAccept(accept, recipient, now) => AcceptKeepsAcceptances(trace.rows, accept, recipient, now);
    case OpRemove(remove) => RemovalKeepsInvitations(trace.rows, remove);
    case OpRevokeFromBrowser(_, _) => RevocationKeepsInvitations(trace.rows, op);
    case OpRevokeFromHost(_) => RevocationKeepsInvitations(trace.rows, op);
    case OpReconcile(ticket, ids) =>
      if ticket in trace.pending {
        ReconcileKeepsInvitations(trace.rows, trace.pending[ticket].command, trace.pending[ticket].path, ids);
      }
    case _ =>
  }

  lemma {:induction false} RunKeepsAcceptances(trace: Trace, ops: seq<Op>)
    ensures AcceptancesKept(trace.rows, Run(trace, ops).rows)
    decreases |ops|
  {
    hide Step;
    if ops != [] {
      RunKeepsAcceptances(trace, ops[..|ops| - 1]);
      StepKeepsAcceptances(Run(trace, ops[..|ops| - 1]), ops[|ops| - 1]);
    }
  }

  /**
    At any later time an accepted invitation answers its exact replay alike while
    the member is active and the Session lives, refuses any other request for it
    and never admits anyone twice.
   */
  lemma AcceptanceReplay(trace: Trace, command: AcceptCommand, recipient: Recipient, now: int, ops: seq<Op>,
                         replay: AcceptCommand, session: Session, later: int)
    requires Reachable(trace) && AcceptInvitation(trace.rows, command, recipient, now).1.Ok?
    requires replay.invitation == command.invitation && TrimSpace(replay.key) != [] && |replay.key| <= MAX_KEY
    requires session.user == replay.user && !session.revoked
    ensures command.invitation in trace.rows.invitations
    ensures var t := Run(Step(trace, OpAccept(command, recipient, now)), ops).rows;
      AcceptInvitation(t, replay, Recipient(true, Some(session), Some(replay.user)), later) ==
        if replay.user != command.user then (t, Err(InvitationUnavailable))
        else if replay.key != command.key || replay.digest != command.digest then (t, Err(InvitationAccepted))
        else if !Active(t, MemberKey(trace.rows.invitations[command.invitation].space, command.user))
        then (t, Err(InvitationUnavailable))
        else if session.expiresAt <= later then (t, Err(Unauthenticated))
        else (t, AcceptInvitation(trace.rows, command, recipient, now).1)
  {
    hide Reachable, Run, Inv, AcceptInvitation, OnInvitation, Evolves, Active, TrimSpace, AcceptancesKept;
    var next := Step(trace, OpAccept(command, recipient, now));
    var answer := AcceptInvitation(trace.rows, command, recipient, now).1.value;
    ReachableInv(trace);
    StepKeepsInv(trace, OpAccept(command, recipient, now));
    RunKeepsInv(next, ops);
    RunKeepsAcceptances(next, ops);
    AcceptanceRecorded(trace.rows, command, recipient, now);
    OnInvitationStays(next.rows, Run(next, ops).rows, command, answer);
    RecordedAcceptanceAnswers(Run(next, ops).rows, command, answer, replay, session, later);
  }

  /** What an accepted invitation has on record, and the answer it gave. */
  ghost predicate OnInvitation(s: State, command: AcceptCommand, answer: Accepted) {
    && command.invitation in s.invitations
    && var row := s.invitations[command.invitation];
       var member := MemberKey(row.space, command.user);
       && row.acceptance == Some(Acceptance(command.user, answer.alreadyMember, command.key, command.digest))
       && !row.revoked && answer.space == row.space && row.space in s.spaces && member in s.members
       && answer.manages == s.members[member].manages && answer.enrolls == s.members[member].enrolls
  }

  lemma AcceptanceRecorded(s: State, command: AcceptCommand, recipient: Recipient, now: int)
    requires AcceptInvitation(s, command, recipient, now).1.Ok?
    ensures var (u, r) := AcceptInvitation(s, command, recipient, now);
      && command.invitation in s.invitations && command.invitation in u.invitations
      && u.invitations[command.invitation].space == s.invitations[command.invitation].space
      && OnInvitation(u, command, r.value)
  {
    hide TrimSpace, AcceptLocked, OnInvitation, Active;
    LockedAcceptance(s, command, recipient.session.value, now);
  }

  lemma OnInvitationStays(s: State, t: State, command: AcceptCommand, answer: Accepted)
    requires OnInvitation(s, command, answer) && Evolves(s, t) && AcceptancesKept(s, t)
    ensures OnInvitation(t, command, answer) && t.invitations[command.invitation] == s.invitations[command.invitation]
  {
    hide MachinesAdvance, AgentsAdvance, WorksKept, RemovalsKept;
  }

  lemma RecordedAcceptanceAnswers(t: State, command: AcceptCommand, answer: Accepted, replay: AcceptCommand,
                                  session: Session, later: int)
    requires OnInvitation(t, command, answer)
    requires replay.invitation == command.invitation && TrimSpace(replay.key) != [] && |replay.key| <= MAX_KEY
    requires session.user == replay.user && !session.revoked
    ensures AcceptInvitation(t, replay, Recipient(true, Some(session), Some(replay.user)), later) ==
      if replay.user != command.user then (t, Err(InvitationUnavailable))
      else if replay.key != command.key || replay.digest != command.digest then (t, Err(InvitationAccepted))
      else if !Active(t, MemberKey(t.invitations[command.invitation].space, command.user))
      then (t, Err(InvitationUnavailable))
      else if session.expiresAt <= later then (t, Err(Unauthenticated))
      else (t, Ok(answer))
  {
    hide TrimSpace;
  }

  /** A request key removes at most one member: its replay is a no-op, and any other use of it conflicts. */
  lemma RemovalReplay(trace: Trace, command: RemoveCommand, ops: seq<Op>, replay: RemoveCommand)
    requires Reachable(trace) && RemoveMember(trace.rows, command).1.Ok?
    requires replay.space == command.space && replay.actor == command.actor
    requires Normalize(replay.key, MAX_KEY) == Normalize(command.key, MAX_KEY)
    ensures var t := Run(Step(trace, OpRemove(command)), ops).rows;
      RemoveMember(t, replay) ==
        if replay.target == command.target && replay.successor == command.successor
        then (t, Ok(())) else (t, Err(IdempotencyConflict))
  {
    hide Reachable, Run, Inv, RowInv, Normalize, RemoveMember, Evolves;
    ReachableInv(trace);
    var next := Step(trace, OpRemove(command));
    StepKeepsInv(trace, OpRemove(command));
    RunKeepsInv(next, ops);
    InvRows(trace);
    RemovalRecorded(trace.rows, command);
    var t := Run(next, ops).rows;
    RecordedRemovalReplays(next.rows, t, command, replay);
  }

  /** After a removal its request is on record with its target and successor. */
  ghost predicate OnRecord(s: State, command: RemoveCommand, key: Bytes) {
    var k := RemovalKey(command.space, command.actor, key);
    && command.space in s.spaces && k in s.byRemoval && s.byRemoval[k] == command.target
    && MemberKey(command.space, command.target) in s.members
    && s.members[MemberKey(command.space, command.target)].removal.Some?
    && s.members[MemberKey(command.space, command.target)].removal.value.successor == command.successor
  }

  lemma RemovalRecorded(s: State, command: RemoveCommand)
    requires RowInv(s) && RemoveMember(s, command).1.Ok?
    ensures Normalize(command.key, MAX_KEY).Some?
    ensures OnRecord(RemoveMember(s, command).0, command, Normalize(command.key, MAX_KEY).value)
  {
    hide RowInv, Normalize, RemovalRefused, Transfer, RemoveAgents;
    var t := RemoveMember(s, command).0;
    if RemovalKey(command.space, command.actor, Normalize(command.key, MAX_KEY).value) !in s.byRemoval {
      RemovalIs(s, command);
      RemovalMembers(s, command, Normalize(command.key, MAX_KEY).value);
      RemovedSpaces(s, command, Normalize(command.key, MAX_KEY).value);
    }
  }

  lemma RemovedSpaces(s: State, command: RemoveCommand, key: Bytes)
    requires MemberKey(command.space, command.target) in s.members
    ensures Removed(s, command, key).spaces == s.spaces
    ensures Removed(s, command, key).byRemoval
      == s.byRemoval[RemovalKey(command.space, command.actor, key) := command.target]
  {}

  lemma RecordedRemovalReplays(s: State, t: State, command: RemoveCommand, replay: RemoveCommand)
    requires Normalize(command.key, MAX_KEY).Some? && OnRecord(s, command, Normalize(command.key, MAX_KEY).value)
    requires Evolves(s, t)
    requires replay.space == command.space && replay.actor == command.actor
    requires Normalize(replay.key, MAX_KEY) == Normalize(command.key, MAX_KEY)
    ensures RemoveMember(t, replay) ==
      if replay.target == command.target && replay.successor == command.successor
      then (t, Ok(())) else (t, Err(IdempotencyConflict))
  {
    hide Normalize, RemovalRefused, MachinesAdvance, AgentsAdvance, WorksKept;
  }

  /** The last-authority guards refuse exactly the removal of a Space's only manager or enroller. */
  lemma LastAuthorityIff(s: State, space: Id, target: Id)
    requires ActiveManager(s, space, target) || ActiveEnroller(s, space, target)
    ensures ActiveManager(s, space, target) ==>
      (|Managers(s, space)| <= 1 <==> forall u {:trigger ActiveManager(s, space, u)} :: ActiveManager(s, space, u) ==> u == target)
    ensures ActiveEnroller(s, space, target) ==>
      (|Enrollers(s, space)| <= 1 <==> forall u {:trigger ActiveEnroller(s, space, u)} :: ActiveEnroller(s, space, u) ==> u == target)
  {
    if ActiveManager(s, space, target) {
      forall u {:trigger ActiveManager(s, space, u)} ensures u in Managers(s, space) <==> ActiveManager(s, space, u) {
        if ActiveManager(s, space, u) { assert MemberKey(space, u) in s.members; }
      }
      Sole(Managers(s, space), target);
    }
    if ActiveEnroller(s, space, target) {
      forall u {:trigger ActiveEnroller(s, space, u)} ensures u in Enrollers(s, space) <==> ActiveEnroller(s, space, u) {
        if ActiveEnroller(s, space, u) { assert MemberKey(space, u) in s.members; }
      }
      Sole(Enrollers(s, space), target);
    }
  }

  lemma Sole(users: set<Id>, user: Id)
    requires user in users
    ensures |users| <= 1 <==> forall u :: u in users ==> u == user
  {
    if |users| > 1 {
      var other := AnotherMember(users, user);
    } else {
      assert |users - {user}| == 0;
      assert users == {user};
    }
  }
}
