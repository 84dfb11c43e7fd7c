/** Preservation of the authority invariant, transaction by transaction. */
module AuthorityRuns {
  import opened Wrappers
  import opened Ids
  import opened Text
  import opened AgentName
  import opened ReportCommand
  import opened Authority
  import opened AuthorityInvariant

  /** A step keeps the rows' invariant, goes only forward, and keeps presence refining the snapshots. */
  ghost predicate Keeps(s: State, t: State, accepted: map<Id, seq<Recognized>>)
    requires PresenceRows(s) && PresenceRefines(s, accepted)
  {
    RowInv(t) && PresenceRefines(t, accepted) && Evolves(s, t)
  }

  // ----- What a transaction does not touch -----

  /** Agents and their indexes are as they were. */
  ghost predicate SameAgents(s: State, t: State) {
    t.agents == s.agents && t.presence == s.presence && t.byBinding == s.byBinding && t.byName == s.byName
  }

  lemma IndexesCarry(s: State, t: State)
    requires Bindings(s) && Names(s) && PresenceRows(s) && SameAgents(s, t)
    ensures Bindings(t) && Names(t) && PresenceRows(t) && AgentsAdvance(s, t)
  {}

  lemma PresenceCarries(s: State, t: State, accepted: map<Id, seq<Recognized>>)
    requires PresenceRows(s) && PresenceRows(t) && PresenceRefines(s, accepted)
    requires t.agents == s.agents && t.presence == s.presence
    ensures PresenceRefines(t, accepted)
  {
    hide Listed;
  }

  /** Memberships only joined. */
  ghost predicate MembersGrow(s: State, t: State) {
    forall m {:trigger m in s.members} :: m in s.members ==> m in t.members && t.members[m] == s.members[m]
  }

  /** No Machine was revoked, and none changed its Space or enroller. */
  ghost predicate MachinesStay(s: State, t: State) {
    MachinesAdvance(s, t)
    && forall m {:trigger m in s.machines} :: m in s.machines ==>
         m in t.machines && t.machines[m].revocation == s.machines[m].revocation
  }

  lemma HousedCarries(s: State, t: State)
    requires Housed(s) && t.agents == s.agents && MembersGrow(s, t) && MachinesStay(s, t)
    ensures Housed(t)
  {
    forall a | a in t.agents ensures HousedAgent(t, t.agents[a]) {
      assert HousedAgent(s, s.agents[a]);
    }
  }

  lemma WorksCarry(s: State, t: State)
    requires WorksOwned(s) && t.works == s.works && MembersGrow(s, t)
    ensures WorksOwned(t) && WorksKept(s, t)
  {}

  lemma RemovalsCarry(s: State, t: State)
    requires RemovalsIndexed(s) && t.byRemoval == s.byRemoval && MembersGrow(s, t)
    ensures RemovalsIndexed(t) && RemovalsKept(s, t) && MembersAdvance(s, t)
  {}

  lemma GovernedCarries(s: State, t: State)
    requires AllGoverned(s) && MembersGrow(s, t) && SpacesKept(s, t)
    requires forall c :: c in t.spaces && c !in s.spaces ==> Governed(t, c)
    ensures AllGoverned(t)
  {
    hide Governed, MembersGrow;
    forall c | c in t.spaces ensures Governed(t, c) {
      if c in s.spaces { StillGoverned(s, t, c); }
    }
  }

  lemma StillGoverned(s: State, t: State, space: Id)
    requires Governed(s, space) && MembersGrow(s, t)
    ensures Governed(t, space)
  {
    var manager :| ActiveManager(s, space, manager);
    var enroller :| ActiveEnroller(s, space, enroller);
    assert ActiveManager(t, space, manager) && ActiveEnroller(t, space, enroller);
  }

  // ----- Memberships and Spaces -----

  /** Nothing but Spaces, memberships, invitations and their indexes changed. */
  ghost predicate OnlyMembers(s: State, t: State) {
    t == s.(spaces := t.spaces, byCreation := t.byCreation, members := t.members, invitations := t.invitations)
  }

  lemma SameMachines(s: State, t: State)
    requires t.machines == s.machines
    ensures MachinesStay(s, t)
  {}

  lemma MembersGrowKeep(s: State, t: State, accepted: map<Id, seq<Recognized>>)
    requires RowInv(s) && PresenceRefines(s, accepted) && OnlyMembers(s, t) && MembersGrow(s, t) && SpacesKept(s, t)
    requires forall c :: c in t.spaces && c !in s.spaces ==> Governed(t, c)
    ensures Keeps(s, t, accepted)
  {
    hide Governed, Bindings, Names, PresenceRows, Housed, WorksOwned, AllGoverned, RemovalsIndexed, PresenceRefines,
      AgentsAdvance, WorksKept, RemovalsKept, MembersAdvance, MachinesAdvance, MembersGrow;
    IndexesCarry(s, t);
    PresenceCarries(s, t, accepted);
    SameMachines(s, t);
    HousedCarries(s, t);
    WorksCarry(s, t);
    RemovalsCarry(s, t);
    GovernedCarries(s, t);
  }

  lemma CreateSpaceKeeps(s: State, command: CreateSpaceCommand, userExists: bool, slugTaken: bool,
                         accepted: map<Id, seq<Recognized>>)
    requires RowInv(s) && PresenceRefines(s, accepted)
    ensures Keeps(s, CreateSpace(s, command, userExists, slugTaken).0, accepted)
  {
    hide RowInv, PresenceRefines, Evolves;
    var t := CreateSpace(s, command, userExists, slugTaken).0;
    EvolvesReflexive(s);
    if t != s {
      assert ActiveManager(t, command.space, command.user) && ActiveEnroller(t, command.space, command.user);
      MembersGrowKeep(s, t, accepted);
    }
  }

  lemma AcceptKeeps(s: State, command: AcceptCommand, recipient: Recipient, now: int,
                    accepted: map<Id, seq<Recognized>>)
    requires RowInv(s) && PresenceRefines(s, accepted)
    ensures Keeps(s, AcceptInvitation(s, command, recipient, now).0, accepted)
  {
    hide RowInv, PresenceRefines, Evolves, TrimSpace;
    var t := AcceptInvitation(s, command, recipient, now).0;
    EvolvesReflexive(s);
    if t != s {
      MembersGrowKeep(s, t, accepted);
    }
  }

  lemma InviteKeeps(s: State, invitations: map<Id, Invitation>, accepted: map<Id, seq<Recognized>>)
    requires RowInv(s) && PresenceRefines(s, accepted)
    ensures Keeps(s, s.(invitations := invitations), accepted)
  {
    hide RowInv, PresenceRefines, Evolves;
    var t := s.(invitations := invitations);
    MembersGrowKeep(s, t, accepted);
  }

  // ----- Works -----

  lemma SameMembers(s: State, t: State)
    requires t.members == s.members && t.spaces == s.spaces
    ensures MembersGrow(s, t) && SpacesKept(s, t)
  {}

  lemma OpenedWorks(s: State, owner: Member, work: Id)
    requires WorksOwned(s)
    ensures WorksOwned(OpenWork(s, owner, work).0) && WorksKept(s, OpenWork(s, owner, work).0)
    ensures OpenWork(s, owner, work).0 == s.(works := OpenWork(s, owner, work).0.works)
  {}

  lemma OpenWorkKeeps(s: State, owner: Member, work: Id, accepted: map<Id, seq<Recognized>>)
    requires RowInv(s) && PresenceRefines(s, accepted)
    ensures Keeps(s, OpenWork(s, owner, work).0, accepted)
  {
    hide Governed, Bindings, Names, PresenceRows, Housed, WorksOwned, AllGoverned, RemovalsIndexed, PresenceRefines,
      AgentsAdvance, WorksKept, RemovalsKept, MembersAdvance, MachinesAdvance, MembersGrow, SpacesKept, OpenWork;
    var t := OpenWork(s, owner, work).0;
    OpenedWorks(s, owner, work);
    IndexesCarry(s, t);
    PresenceCarries(s, t, accepted);
    SameMachines(s, t);
    SameMembers(s, t);
    HousedCarries(s, t);
    RemovalsCarry(s, t);
    GovernedCarries(s, t);
  }

  // ----- Machines -----

  lemma MachinesOnly(s: State, t: State, accepted: map<Id, seq<Recognized>>)
    requires RowInv(s) && PresenceRefines(s, accepted) && t == s.(machines := t.machines) && MachinesStay(s, t)
    ensures Keeps(s, t, accepted)
  {
    hide Governed, Bindings, Names, PresenceRows, Housed, WorksOwned, AllGoverned, RemovalsIndexed, PresenceRefines,
      AgentsAdvance, WorksKept, RemovalsKept, MembersAdvance, MachinesAdvance, MembersGrow, SpacesKept;
    IndexesCarry(s, t);
    PresenceCarries(s, t, accepted);
    SameMembers(s, t);
    HousedCarries(s, t);
    WorksCarry(s, t);
    RemovalsCarry(s, t);
    GovernedCarries(s, t);
  }

  lemma ConnectKeeps(s: State, command: ConnectCommand, accepted: map<Id, seq<Recognized>>)
    requires RowInv(s) && PresenceRefines(s, accepted)
    ensures Keeps(s, ConnectMachine(s, command).0, accepted)
  {
    hide SerialTaken, RowInv, PresenceRefines, Keeps;
    MachinesOnly(s, ConnectMachine(s, command).0, accepted);
  }

  // ----- Removing Agents -----

  lemma RemoveAgentsAdvances(s: State, removed: set<Id>)
    ensures AgentsAdvance(s, RemoveAgents(s, removed))
  {}

  lemma RemoveAgentsKeepsIndexes(s: State, removed: set<Id>)
    requires Bindings(s) && Names(s) && PresenceRows(s)
    ensures Bindings(RemoveAgents(s, removed)) && Names(RemoveAgents(s, removed)) && PresenceRows(RemoveAgents(s, removed))
  {
    RemoveAgentsNames(s, removed);
    hide Bindings, Names;
  }

  lemma RemoveAgentsNames(s: State, removed: set<Id>)
    requires Names(s)
    ensures Names(RemoveAgents(s, removed))
  {}

  lemma RemoveAgentsPresence(s: State, removed: set<Id>, accepted: map<Id, seq<Recognized>>)
    requires PresenceRows(s) && PresenceRefines(s, accepted) && PresenceRows(RemoveAgents(s, removed))
    ensures PresenceRefines(RemoveAgents(s, removed), accepted)
  {
    hide Listed;
  }

  lemma RevokeKeeps(s: State, machine: Id, revocation: Revocation, accepted: map<Id, seq<Recognized>>)
    requires RowInv(s) && PresenceRefines(s, accepted)
    requires machine in s.machines && s.machines[machine].revocation.None?
    ensures Keeps(s, Revoke(s, machine, revocation), accepted)
  {
    hide Governed, Bindings, Names, PresenceRows, Housed, WorksOwned, AllGoverned, RemovalsIndexed, PresenceRefines,
      AgentsAdvance, WorksKept, RemovalsKept, MembersAdvance, MachinesAdvance, MembersGrow, SpacesKept,
      RemoveAgents, ActiveAgentsOfMachine, Revoke;
    var removed := ActiveAgentsOfMachine(s, machine);
    var middle, t := RemoveAgents(s, removed), Revoke(s, machine, revocation);
    RemoveAgentsKeepsIndexes(s, removed);
    RemoveAgentsAdvances(s, removed);
    RemoveAgentsPresence(s, removed, accepted);
    RevokeChanges(s, machine, revocation);
    IndexesCarry(middle, t);
    PresenceCarries(middle, t, accepted);
    AgentsTransitive(s, middle, t);
    RevokeHoused(s, machine, revocation);
    SameMembers(s, t);
    WorksCarry(s, t);
    RemovalsCarry(s, t);
    GovernedCarries(s, t);
  }

  lemma RevokeChanges(s: State, machine: Id, revocation: Revocation)
    requires machine in s.machines && s.machines[machine].revocation.None?
    ensures var t := Revoke(s, machine, revocation);
      && SameAgents(RemoveAgents(s, ActiveAgentsOfMachine(s, machine)), t)
      && t == s.(agents := t.agents, presence := t.presence, machines := t.machines)
      && MachinesAdvance(s, t)
  {}

  lemma RevokeHoused(s: State, machine: Id, revocation: Revocation)
    requires Housed(s) && machine in s.machines
    ensures Housed(Revoke(s, machine, revocation))
  {
    var t := Revoke(s, machine, revocation);
    forall a | a in t.agents ensures HousedAgent(t, t.agents[a]) {
      assert HousedAgent(s, s.agents[a]);
      if !t.agents[a].removed { assert a !in ActiveAgentsOfMachine(s, machine); }
    }
  }

  lemma RevokeFromBrowserKeeps(s: State, command: RevokeCommand, session: Option<Id>,
                               accepted: map<Id, seq<Recognized>>)
    requires RowInv(s) && PresenceRefines(s, accepted)
    ensures Keeps(s, RevokeFromBrowser(s, command, session).0, accepted)
  {
    hide RowInv, PresenceRefines, Evolves, Revoke, UserRevocationTaken, ActiveEnroller;
    EvolvesReflexive(s);
    var t := RevokeFromBrowser(s, command, session).0;
    if t != s {
      RevokeKeeps(s, command.machine, ByUser(session.value, command.key, command.digest), accepted);
    }
  }

  lemma RevokeFromHostKeeps(s: State, command: SelfRevokeCommand, accepted: map<Id, seq<Recognized>>)
    requires RowInv(s) && PresenceRefines(s, accepted)
    ensures Keeps(s, RevokeFromHost(s, command).0, accepted)
  {
    hide RowInv, PresenceRefines, Evolves, Revoke;
    EvolvesReflexive(s);
    var t := RevokeFromHost(s, command).0;
    if t != s {
      RevokeKeeps(s, command.machine, ByMachine(command.key, command.digest), accepted);
    }
  }

  // ----- Member removal -----

  /** What is left of the rows when the target is gone. */
  function Removed(s: State, command: RemoveCommand, key: Bytes): State
    requires MemberKey(command.space, command.target) in s.members
  {
    var target := MemberKey(command.space, command.target);
    var transferred := if command.successor.Some? then Transfer(s, target, command.successor.value) else s;
    var removed := RemoveAgents(transferred, ActiveAgentsOfOwner(transferred, target));
    var removal := Removal(command.actor, command.successor, key);
    removed.(members := removed.members[target := removed.members[target].(removal := Some(removal))],
             byRemoval := removed.byRemoval[RemovalKey(command.space, command.actor, key) := command.target])
  }

  lemma AnotherMember(users: set<Id>, user: Id) returns (other: Id)
    requires |users| > 1
    ensures other in users && other != user
  {
    var rest := users - {user};
    assert |rest| >= |users| - 1;
    other :| other in rest;
  }

  /** The last-authority guards leave someone else with each right. */
  lemma RemovalGoverned(s: State, command: RemoveCommand, key: Bytes)
    requires AllGoverned(s) && RemovalRefused(s, command).None?
    requires command.space in s.spaces
    ensures AllGoverned(Removed(s, command, key))
  {
    var t := Removed(s, command, key);
    forall c | c in t.spaces ensures Governed(t, c) {
      assert c in s.spaces && Governed(s, c);
      RemovalGovernsManager(s, command, key, c);
      RemovalGovernsEnroller(s, command, key, c);
    }
  }

  lemma RemovalGovernsManager(s: State, command: RemoveCommand, key: Bytes, c: Id)
    requires Governed(s, c) && RemovalRefused(s, command).None?
    ensures exists u :: ActiveManager(Removed(s, command, key), c, u)
  {
    var t := Removed(s, command, key);
    var manager :| ActiveManager(s, c, manager);
    if c == command.space && manager == command.target {
      manager := AnotherMember(Managers(s, c), command.target);
    }
    assert ActiveManager(t, c, manager);
  }

  lemma RemovalGovernsEnroller(s: State, command: RemoveCommand, key: Bytes, c: Id)
    requires Governed(s, c) && RemovalRefused(s, command).None?
    ensures exists u :: ActiveEnroller(Removed(s, command, key), c, u)
  {
    var t := Removed(s, command, key);
    var enroller :| ActiveEnroller(s, c, enroller);
    if c == command.space && enroller == command.target {
      enroller := AnotherMember(Enrollers(s, c), command.target);
    }
    assert ActiveEnroller(t, c, enroller);
  }

  /** Works after the removal: the target's are the successor's, the others are untouched. */
  lemma RemovalWorks(s: State, command: RemoveCommand, key: Bytes)
    requires RemovalRefused(s, command).None?
    ensures var t := Removed(s, command, key);
      var target := MemberKey(command.space, command.target);
      && t.works.Keys == s.works.Keys
      && forall w {:trigger w in s.works} {:trigger t.works[w]} :: w in s.works ==>
           t.works[w] ==
             if MemberKey(s.works[w].space, s.works[w].owner) == target && command.successor.Some?
             then s.works[w].(owner := command.successor.value) else s.works[w]
  {
    hide Managers, Enrollers, ActiveManager, OpenWorksOf, ActiveAgentsOfOwner;
  }

  /** With Open Works there is a successor, an active member other than the target. */
  lemma RemovalSuccessor(s: State, command: RemoveCommand, work: Id)
    requires RemovalRefused(s, command).None? && work in s.works
    requires MemberKey(s.works[work].space, s.works[work].owner) == MemberKey(command.space, command.target)
    ensures command.successor.Some? && command.successor.value != command.target
    ensures Active(s, MemberKey(command.space, command.successor.value))
  {
    hide Managers, Enrollers, ActiveManager, Active;
    assert work in OpenWorksOf(s, MemberKey(command.space, command.target));
  }

  lemma RemovalWorksOwned(s: State, command: RemoveCommand, key: Bytes)
    requires WorksOwned(s) && RemovalRefused(s, command).None?
    ensures WorksOwned(Removed(s, command, key)) && WorksKept(s, Removed(s, command, key))
  {
    hide Removed, RemovalRefused, Active;
    var t := Removed(s, command, key);
    RemovalWorks(s, command, key);
    forall w | w in t.works ensures Active(t, MemberKey(t.works[w].space, t.works[w].owner)) {
      assert w in s.works;
      if MemberKey(s.works[w].space, s.works[w].owner) == MemberKey(command.space, command.target) {
        RemovalSuccessor(s, command, w);
      }
      RemovalActives(s, command, key, MemberKey(t.works[w].space, t.works[w].owner));
    }
  }

  lemma RemovalActives(s: State, command: RemoveCommand, key: Bytes, member: Member)
    requires MemberKey(command.space, command.target) in s.members
    ensures Active(Removed(s, command, key), member) <==>
      Active(s, member) && member != MemberKey(command.space, command.target)
  {
    hide ActiveAgentsOfOwner, RemoveAgents, Transfer;
    RemovalMembers(s, command, key);
  }

  lemma RemovalMembers(s: State, command: RemoveCommand, key: Bytes)
    requires MemberKey(command.space, command.target) in s.members
    ensures var target := MemberKey(command.space, command.target);
      Removed(s, command, key).members ==
        s.members[target := s.members[target].(removal := Some(Removal(command.actor, command.successor, key)))]
  {
    hide ActiveAgentsOfOwner;
  }

  lemma RemovalHoused(s: State, command: RemoveCommand, key: Bytes)
    requires Housed(s) && MemberKey(command.space, command.target) in s.members
    ensures Housed(Removed(s, command, key))
  {
    var t := Removed(s, command, key);
    var target := MemberKey(command.space, command.target);
    var transferred := if command.successor.Some? then Transfer(s, target, command.successor.value) else s;
    forall a | a in t.agents ensures HousedAgent(t, t.agents[a]) {
      assert HousedAgent(s, s.agents[a]);
      if !t.agents[a].removed {
        assert a !in ActiveAgentsOfOwner(transferred, target);
        RemovalActives(s, command, key, MemberKey(s.agents[a].space, s.agents[a].owner));
      }
    }
  }

  lemma RemovalIndexes(s: State, command: RemoveCommand, key: Bytes)
    requires RemovalsIndexed(s) && RemovalRefused(s, command).None?
    requires RemovalKey(command.space, command.actor, key) !in s.byRemoval
    ensures RemovalsIndexed(Removed(s, command, key))
  {
    hide Managers, Enrollers;
    var t := Removed(s, command, key);
    var target := MemberKey(command.space, command.target);
    forall k | k in t.byRemoval
      ensures var m := MemberKey(k.space, t.byRemoval[k]);
        m in t.members && t.members[m].removal.Some?
        && t.members[m].removal.value.actor == k.actor && t.members[m].removal.value.key == k.key
    {
      if k in s.byRemoval {
        assert MemberKey(k.space, s.byRemoval[k]) != target;
      }
    }
  }

  lemma RemovalEvolves(s: State, command: RemoveCommand, key: Bytes)
    requires RemovalRefused(s, command).None?
    requires RemovalKey(command.space, command.actor, key) !in s.byRemoval
    ensures Evolves(s, Removed(s, command, key))
  {
    hide RemovalRefused, AgentsAdvance, WorksKept, MembersAdvance, MachinesAdvance, Removed, Active;
    var t := Removed(s, command, key);
    RemovalAdvancesAgents(s, command, key);
    RemovalWorks(s, command, key);
    RemovalKeepsWorks(s, t, command);
    RemovalMembers(s, command, key);
    RemovalAdvancesMembers(s, t, command, key);
    RemovalOthers(s, command, key);
    SameMachines(s, t);
  }

  lemma RemovalAdvancesAgents(s: State, command: RemoveCommand, key: Bytes)
    requires MemberKey(command.space, command.target) in s.members
    ensures AgentsAdvance(s, Removed(s, command, key))
  {
    hide ActiveAgentsOfOwner, RemoveAgents, AgentsAdvance;
    var target := MemberKey(command.space, command.target);
    var transferred := if command.successor.Some? then Transfer(s, target, command.successor.value) else s;
    var removed := ActiveAgentsOfOwner(transferred, target);
    RemoveAgentsAdvances(transferred, removed);
    SameAgentsAdvance(s, transferred);
    SameAgentsAdvance(RemoveAgents(transferred, removed), Removed(s, command, key));
    AgentsTransitive(s, transferred, RemoveAgents(transferred, removed));
    AgentsTransitive(s, RemoveAgents(transferred, removed), Removed(s, command, key));
  }

  lemma SameAgentsAdvance(s: State, t: State)
    requires t.agents == s.agents && t.byBinding == s.byBinding && t.byName == s.byName
    ensures AgentsAdvance(s, t)
  {}

  lemma RemovalKeepsWorks(s: State, t: State, command: RemoveCommand)
    requires t.works.Keys == s.works.Keys
    requires forall w {:trigger w in s.works} :: w in s.works ==> t.works[w].space == s.works[w].space
    ensures WorksKept(s, t)
  {}

  lemma RemovalAdvancesMembers(s: State, t: State, command: RemoveCommand, key: Bytes)
    requires RemovalRefused(s, command).None?
    requires var target := MemberKey(command.space, command.target);
      t.members == s.members[target := s.members[target].(removal := Some(Removal(command.actor, command.successor, key)))]
    ensures MembersAdvance(s, t)
  {
    hide Managers, Enrollers, OpenWorksOf;
  }

  lemma RemovalOthers(s: State, command: RemoveCommand, key: Bytes)
    requires MemberKey(command.space, command.target) in s.members
    requires RemovalKey(command.space, command.actor, key) !in s.byRemoval
    ensures var t := Removed(s, command, key);
      t.machines == s.machines && RemovalsKept(s, t) && SpacesKept(s, t)
  {
    hide ActiveAgentsOfOwner;
  }

  lemma RemovalAgents(s: State, command: RemoveCommand, key: Bytes, accepted: map<Id, seq<Recognized>>)
    requires Bindings(s) && Names(s) && PresenceRows(s) && PresenceRefines(s, accepted)
    requires MemberKey(command.space, command.target) in s.members
    ensures var t := Removed(s, command, key);
      Bindings(t) && Names(t) && PresenceRows(t) && PresenceRefines(t, accepted)
  {
    var target := MemberKey(command.space, command.target);
    var transferred := if command.successor.Some? then Transfer(s, target, command.successor.value) else s;
    var removed := ActiveAgentsOfOwner(transferred, target);
    IndexesCarry(s, transferred);
    PresenceCarries(s, transferred, accepted);
    RemoveAgentsKeepsIndexes(transferred, removed);
    RemoveAgentsPresence(transferred, removed, accepted);
    IndexesCarry(RemoveAgents(transferred, removed), Removed(s, command, key));
    PresenceCarries(RemoveAgents(transferred, removed), Removed(s, command, key), accepted);
    hide Bindings, Names, PresenceRefines, PresenceRows, AgentsAdvance, ActiveAgentsOfOwner;
  }

  lemma RemoveMemberKeeps(s: State, command: RemoveCommand, accepted: map<Id, seq<Recognized>>)
    requires RowInv(s) && PresenceRefines(s, accepted)
    ensures Keeps(s, RemoveMember(s, command).0, accepted)
  {
    hide Normalize, RemovalRefused, Transfer, RemoveAgents, Evolves, PresenceRefines,
      Bindings, Names, Housed, WorksOwned, AllGoverned, RemovalsIndexed;
    EvolvesReflexive(s);
    var t := RemoveMember(s, command).0;
    if t != s {
      var key := Normalize(command.key, MAX_KEY).value;
      assert RemovalRefused(s, command).None?;
      assert t == Removed(s, command, key);
      RemovalGoverned(s, command, key);
      RemovalWorksOwned(s, command, key);
      RemovalHoused(s, command, key);
      RemovalIndexes(s, command, key);
      RemovalEvolves(s, command, key);
      RemovalAgents(s, command, key, accepted);
    }
  }

  // ----- Agent reports -----

  /** The allocation authority a report's locked phases hold. */
  ghost predicate MayAllocate(s: State, machine: Id, path: Path) {
    && machine in s.machines && s.machines[machine].revocation.None?
    && path.space == s.machines[machine].space && path.enroller == s.machines[machine].enroller
    && Active(s, MemberKey(path.space, path.enroller))
  }

  /** What allocation has done so far: new absent Agents of this Machine, and nothing else. */
  ghost predicate Allocates(s: State, t: State, machine: Id)
    requires PresenceRows(s)
  {
    && Bindings(t) && Names(t) && PresenceRows(t) && Housed(t) && AgentsAdvance(s, t)
    && t == s.(agents := t.agents, presence := t.presence, byBinding := t.byBinding, byName := t.byName)
    && OnlyNewAgents(s, t, machine)
  }

  ghost predicate OnlyNewAgents(s: State, t: State, machine: Id)
    requires PresenceRows(s) && PresenceRows(t) && AgentsAdvance(s, t)
  {
    && (forall a {:trigger a in s.agents} :: a in s.agents ==> t.agents[a] == s.agents[a] && t.presence[a] == s.presence[a])
    && (forall a {:trigger a in t.agents} :: a in t.agents && a !in s.agents ==>
          t.agents[a].machine == machine && !t.agents[a].removed && !t.presence[a])
  }

  /** An Agent is added with its rows and index entries. */
  function AddAgent(s: State, id: Id, agent: Agent): State {
    s.(agents := s.agents[id := agent], presence := s.presence[id := false],
       byBinding := s.byBinding[BindingOf(agent) := id], byName := s.byName[NameKeyOf(agent) := id])
  }

  lemma AddAgentIndexes(s: State, id: Id, agent: Agent)
    requires Bindings(s) && Names(s) && PresenceRows(s) && id !in s.agents && !agent.removed
    requires BindingOf(agent) !in s.byBinding && NameKeyOf(agent) !in s.byName
    ensures Bindings(AddAgent(s, id, agent)) && Names(AddAgent(s, id, agent)) && PresenceRows(AddAgent(s, id, agent))
    ensures AgentsAdvance(s, AddAgent(s, id, agent))
  {
    AddAgentBindings(s, id, agent);
    AddAgentNames(s, id, agent);
    assert PresenceRows(AddAgent(s, id, agent));
    AddAgentAdvances(s, id, agent);
    hide Bindings, Names, PresenceRows, AgentsAdvance, AddAgent;
  }

  lemma AddAgentAdvances(s: State, id: Id, agent: Agent)
    requires id !in s.agents && BindingOf(agent) !in s.byBinding && NameKeyOf(agent) !in s.byName
    ensures AgentsAdvance(s, AddAgent(s, id, agent))
  {}

  lemma AddAgentIsNew(s: State, t: State, machine: Id, id: Id, agent: Agent)
    requires PresenceRows(s) && PresenceRows(t) && AgentsAdvance(s, t) && OnlyNewAgents(s, t, machine)
    requires id !in t.agents && agent.machine == machine && !agent.removed
    requires PresenceRows(AddAgent(t, id, agent)) && AgentsAdvance(s, AddAgent(t, id, agent))
    ensures OnlyNewAgents(s, AddAgent(t, id, agent), machine)
  {
    var u := AddAgent(t, id, agent);
    forall a | a in s.agents ensures u.agents[a] == s.agents[a] && u.presence[a] == s.presence[a] {
      assert a in t.agents && a != id;
    }
  }

  lemma AddAgentBindings(s: State, id: Id, agent: Agent)
    requires Bindings(s) && id !in s.agents && BindingOf(agent) !in s.byBinding
    ensures Bindings(AddAgent(s, id, agent))
  {}

  lemma AddAgentNames(s: State, id: Id, agent: Agent)
    requires Names(s) && id !in s.agents && NameKeyOf(agent) !in s.byName
    ensures Names(AddAgent(s, id, agent))
  {}

  lemma AddAgentHoused(s: State, id: Id, agent: Agent)
    requires Housed(s) && HousedAgent(s, agent) && id !in s.agents
    ensures Housed(AddAgent(s, id, agent))
  {
    var t := AddAgent(s, id, agent);
    forall a | a in t.agents ensures HousedAgent(t, t.agents[a]) {
      if a in s.agents { assert HousedAgent(s, s.agents[a]); }
    }
  }

  lemma TakenExact(s: State, space: Id, key: Bytes)
    ensures key in TakenKeys(s, space) <==> AgentNameKey(space, key) in s.byName
  {
    if AgentNameKey(space, key) in s.byName {
      assert AgentNameKey(space, key).key in TakenKeys(s, space);
    }
  }

  lemma AllocateOneAdds(s: State, machine: Id, path: Path, observation: Recognized, id: Option<Id>)
    requires AllocateOne(s, machine, path, observation, id).Ok?
    requires !Bound(s, machine, observation.binding)
    ensures id.Some? && id.value !in s.agents
    ensures exists name: Name ::
      && AgentNameKey(path.space, name.key) !in s.byName
      && AllocateOne(s, machine, path, observation, id).value
         == AddAgent(s, id.value, Agent(path.space, machine, path.enroller, observation.binding, name, false))
  {
    hide AllocatedName, NamedLeast, ValidName;
    var taken := TakenKeys(s, path.space);
    AllocatesLeastFree(observation.nameBase, taken);
    var name := AllocatedName(observation.nameBase, taken).value;
    TakenExact(s, path.space, name.key);
  }

  lemma AllocateOneKeeps(s: State, t: State, machine: Id, path: Path, observation: Recognized, id: Option<Id>)
    requires PresenceRows(s) && Allocates(s, t, machine) && MayAllocate(s, machine, path)
    requires AllocateOne(t, machine, path, observation, id).Ok?
    ensures var u := AllocateOne(t, machine, path, observation, id).value;
      Allocates(s, u, machine) && AgentsAdvance(t, u) && Bound(u, machine, observation.binding)
  {
    hide Bindings, Names, Housed, PresenceRows, OnlyNewAgents, AllocatedName, TakenKeys, AgentsAdvance;
    var u := AllocateOne(t, machine, path, observation, id).value;
    if Bound(t, machine, observation.binding) {
      AgentsStay(t);
    } else {
      AllocateOneAdds(t, machine, path, observation, id);
      hide AllocateOne;
      var name: Name :| AgentNameKey(path.space, name.key) !in t.byName
        && u == AddAgent(t, id.value, Agent(path.space, machine, path.enroller, observation.binding, name, false));
      AddedAllocates(s, t, machine, path, id.value,
                     Agent(path.space, machine, path.enroller, observation.binding, name, false));
    }
  }

  lemma AddedAllocates(s: State, t: State, machine: Id, path: Path, id: Id, agent: Agent)
    requires PresenceRows(s) && Allocates(s, t, machine) && MayAllocate(s, machine, path) && id !in t.agents
    requires agent.space == path.space && agent.machine == machine && agent.owner == path.enroller && !agent.removed
    requires BindingOf(agent) !in t.byBinding && NameKeyOf(agent) !in t.byName
    ensures Allocates(s, AddAgent(t, id, agent), machine) && AgentsAdvance(t, AddAgent(t, id, agent))
    ensures Bound(AddAgent(t, id, agent), machine, agent.binding)
  {
    hide Bindings, Names, Housed, PresenceRows, OnlyNewAgents, AgentsAdvance;
    AddAgentIndexes(t, id, agent);
    AddAgentHoused(t, id, agent);
    AgentsTransitive(s, t, AddAgent(t, id, agent));
    AddAgentIsNew(s, t, machine, id, agent);
  }

  lemma AgentsStay(s: State)
    ensures AgentsAdvance(s, s)
  {}

  lemma {:induction false} AllocateKeeps(s: State, machine: Id, path: Path, active: bool, recognized: seq<Recognized>,
                                         ids: seq<Id>, n: nat)
    requires Bindings(s) && Names(s) && PresenceRows(s) && Housed(s)
    requires n <= |recognized| && Allocate(s, machine, path, active, recognized, ids, n).Ok?
    requires active ==> MayAllocate(s, machine, path)
    ensures var t := Allocate(s, machine, path, active, recognized, ids, n).value;
      Allocates(s, t, machine) && (active ==> AllBound(t, machine, recognized[..n])) && (!active ==> t == s)
  {
    hide Bindings, Names, PresenceRows, Housed, AllocateOne, MayAllocate, AgentsAdvance, Bound;
    if n == 0 {
      NothingAllocated(s, machine);
    } else {
      AllocateKeeps(s, machine, path, active, recognized, ids, n - 1);
      var t := Allocate(s, machine, path, active, recognized, ids, n - 1).value;
      if active {
        hide Allocates;
        var id := if n - 1 < |ids| then Some(ids[n - 1]) else None;
        AllocateOneKeeps(s, t, machine, path, recognized[n - 1], id);
        var u := AllocateOne(t, machine, path, recognized[n - 1], id).value;
        forall i | 0 <= i < n ensures Bound(u, machine, recognized[..n][i].binding) {
          if i < n - 1 {
            assert Bound(t, machine, recognized[..n - 1][i].binding);
            BoundStays(t, u, machine, recognized[i].binding);
          }
        }
      }
    }
  }

  lemma BoundStays(s: State, t: State, machine: Id, binding: Binding)
    requires Bound(s, machine, binding) && AgentsAdvance(s, t)
    ensures Bound(t, machine, binding)
  {}

  /** When every recognized binding exists, the allocation phase is a no-op, whatever the identifiers. */
  lemma {:induction false} NoAllocationWhenBound(s: State, machine: Id, path: Path, active: bool,
                                                recognized: seq<Recognized>, ids: seq<Id>, n: nat)
    requires n <= |recognized| && AllBound(s, machine, recognized)
    ensures Allocate(s, machine, path, active, recognized, ids, n) == Ok(s)
  {
    if n > 0 {
      NoAllocationWhenBound(s, machine, path, active, recognized, ids, n - 1);
      assert Bound(s, machine, recognized[n - 1].binding);
    }
  }

  lemma {:induction false} SetPresentExact(s: State, machine: Id, recognized: seq<Recognized>, n: nat)
    requires n <= |recognized| && Bindings(s) && PresenceRows(s)
    ensures SetPresent(s, machine, recognized, n).Keys == s.presence.Keys
    ensures forall a {:trigger SetPresent(s, machine, recognized, n)[a]} :: a in s.agents ==>
      (SetPresent(s, machine, recognized, n)[a] <==>
        if s.agents[a].machine == machine && !s.agents[a].removed
        then ListedUpTo(recognized, n, s.agents[a].binding) else s.presence[a])
  {
    if n > 0 {
      SetPresentExact(s, machine, recognized, n - 1);
      var earlier, later := SetPresent(s, machine, recognized, n - 1), SetPresent(s, machine, recognized, n);
      forall a | a in s.agents
        ensures later[a] <==>
          if s.agents[a].machine == machine && !s.agents[a].removed
          then ListedUpTo(recognized, n, s.agents[a].binding) else s.presence[a]
      {
        assert BindingOf(s.agents[a]) in s.byBinding;
      }
    }
  }

  /** After replacement, presence is the snapshot for this Machine and untouched elsewhere. */
  lemma ReplacementRefines(s: State, t: State, machine: Id, recognized: seq<Recognized>,
                           accepted: map<Id, seq<Recognized>>)
    requires PresenceRows(s) && Allocates(s, t, machine) && PresenceRefines(s, accepted)
    ensures var u := ReplacePresence(t, machine, recognized);
      PresenceRows(u) && PresenceRefines(u, accepted[machine := recognized])
  {
    hide Names, Housed, AgentsAdvance, ListedUpTo, PresenceRefines, OnlyNewAgents, PresenceRows;
    SetPresentExact(t, machine, recognized, |recognized|);
    ReplacedRows(t, machine, recognized);
    hide Bindings, SetPresent;
    ReplacedRefines(s, t, machine, recognized, accepted);
  }

  lemma ReplacedRows(t: State, machine: Id, recognized: seq<Recognized>)
    requires Bindings(t) && PresenceRows(t)
    ensures PresenceRows(ReplacePresence(t, machine, recognized))
  {
    SetPresentExact(t, machine, recognized, |recognized|);
    hide Bindings, SetPresent, ListedUpTo;
    var u := ReplacePresence(t, machine, recognized);
    forall a | a in u.agents && u.agents[a].removed ensures !u.presence[a] {
      assert a in t.agents && u.presence[a] == t.presence[a];
    }
  }

  lemma ReplacedRefines(s: State, t: State, machine: Id, recognized: seq<Recognized>,
                        accepted: map<Id, seq<Recognized>>)
    requires PresenceRows(s) && PresenceRows(t) && AgentsAdvance(s, t) && OnlyNewAgents(s, t, machine)
    requires Bindings(t) && PresenceRefines(s, accepted)
    ensures PresenceRows(ReplacePresence(t, machine, recognized))
    ensures PresenceRefines(ReplacePresence(t, machine, recognized), accepted[machine := recognized])
  {
    ReplacedRows(t, machine, recognized);
    SetPresentExact(t, machine, recognized, |recognized|);
    hide Bindings, SetPresent, ListedUpTo;
    var u := ReplacePresence(t, machine, recognized);
    forall a | a in u.agents && !u.agents[a].removed
      ensures u.presence[a] <==> Listed(accepted[machine := recognized], BindingOf(u.agents[a]))
    {
      if u.agents[a].machine != machine {
        assert a in s.agents;
        assert u.presence[a] == s.presence[a];
      }
    }
  }

  lemma RecordAdvances(s: State, command: Command, setup: seq<Bytes>)
    requires command.machine in s.machines
    ensures MachinesStay(s, Record(s, command, setup))
    ensures Record(s, command, setup) == s.(machines := Record(s, command, setup).machines)
  {}

  lemma AllocatedRows(s: State, t: State, machine: Id)
    requires RowInv(s) && PresenceRows(s) && Allocates(s, t, machine)
    ensures RowInv(t) && Evolves(s, t)
  {
    hide Governed, Bindings, Names, PresenceRows, Housed, WorksOwned, AllGoverned, RemovalsIndexed,
      AgentsAdvance, WorksKept, RemovalsKept, MembersAdvance, MachinesAdvance, MembersGrow, SpacesKept;
    assert Bindings(t) && Names(t) && PresenceRows(t) && Housed(t) && AgentsAdvance(s, t);
    assert t.machines == s.machines && t.members == s.members && t.spaces == s.spaces && t.works == s.works
      && t.byRemoval == s.byRemoval;
    hide Allocates;
    SameMachines(s, t);
    SameMembers(s, t);
    WorksCarry(s, t);
    RemovalsCarry(s, t);
    GovernedCarries(s, t);
  }

  lemma PresenceReplaced(s: State, u: State)
    requires RowInv(s) && u == s.(presence := u.presence) && PresenceRows(u)
    ensures RowInv(u) && Evolves(s, u)
  {
    hide Governed, PresenceRows, WorksOwned, AllGoverned, RemovalsIndexed,
      WorksKept, RemovalsKept, MembersAdvance, MachinesAdvance, MembersGrow, SpacesKept, Active;
    assert Bindings(u) && Names(u) && AgentsAdvance(s, u);
    hide Bindings, Names, AgentsAdvance;
    SameMachines(s, u);
    SameMembers(s, u);
    HousedCarries(s, u);
    hide Housed;
    WorksCarry(s, u);
    RemovalsCarry(s, u);
    GovernedCarries(s, u);
  }

  /** What an applied report leaves: everything the invariant says, against the new snapshot. */
  lemma AppliedKeeps(s: State, command: Command, path: Path, ids: seq<Id>, accepted: map<Id, seq<Recognized>>)
    requires RowInv(s) && PresenceRefines(s, accepted) && PathSound(s, Pending(command, path))
    requires Applies(s, command, path, ids)
    ensures var u := Reconcile(s, command, path, ids).0;
      RowInv(u) && PresenceRefines(u, accepted[command.machine := command.recognized]) && Evolves(s, u)
  {
    hide RowInv, PresenceRefines, Evolves, Allocates, PresenceRows, Record, ReplacePresence, SetupRequired;
    var active := ApproverActive(s, path);
    var t := Allocate(s, command.machine, path, active, command.recognized, ids, |command.recognized|).value;
    ReportAllocates(s, command, path, ids);
    hide Allocate, ApproverActive;
    RowParts(s);
    AllocatedRows(s, t, command.machine);
    ReplacementRefines(s, t, command.machine, command.recognized, accepted);
    var u := ReplacePresence(t, command.machine, command.recognized);
    ReplacementOnly(t, command.machine, command.recognized);
    PresenceReplaced(t, u);
    var setup := SetupRequired(s, command.machine, active, command.recognized);
    RecordAdvances(u, command, setup);
    MachinesOnly(u, Record(u, command, setup), accepted[command.machine := command.recognized]);
    EvolvesTransitive(s, t, u);
    EvolvesTransitive(s, u, Record(u, command, setup));
  }

  lemma ReplacementOnly(s: State, machine: Id, recognized: seq<Recognized>)
    ensures ReplacePresence(s, machine, recognized) == s.(presence := ReplacePresence(s, machine, recognized).presence)
  {}

  lemma RowParts(s: State)
    requires RowInv(s)
    ensures Bindings(s) && Names(s) && PresenceRows(s) && Housed(s)
  {}

  /** The allocation phase of an applied report, on either lock path. */
  lemma ReportAllocates(s: State, command: Command, path: Path, ids: seq<Id>)
    requires RowInv(s) && PathSound(s, Pending(command, path)) && Applies(s, command, path, ids)
    ensures var active := ApproverActive(s, path);
      var r := Allocate(s, command.machine, path, active, command.recognized, ids, |command.recognized|);
      && r.Ok? && PresenceRows(s) && Allocates(s, r.value, command.machine)
      && (active ==> AllBound(r.value, command.machine, command.recognized))
      && (!path.needsAllocation || !active ==> r.value == s)
  {
    hide RowInv, Record, ReplacePresence, SetupRequired, Allocate, Allocates, Bindings, Names, PresenceRows, Housed, Bound;
    var active := ApproverActive(s, path);
    var n := |command.recognized|;
    RowParts(s);
    assert command.recognized[..n] == command.recognized;
    if path.needsAllocation {
      AllocateKeeps(s, command.machine, path, active, command.recognized, ids, n);
    } else {
      NoAllocationWhenBound(s, command.machine, path, active, command.recognized, ids, n);
      NothingAllocated(s, command.machine);
    }
  }

  lemma NothingAllocated(s: State, machine: Id)
    requires Bindings(s) && Names(s) && PresenceRows(s) && Housed(s)
    ensures Allocates(s, s, machine)
  {}

  lemma ReconcileKeeps(s: State, command: Command, path: Path, ids: seq<Id>, accepted: map<Id, seq<Recognized>>)
    requires RowInv(s) && PresenceRefines(s, accepted) && PathSound(s, Pending(command, path))
    ensures var u := Reconcile(s, command, path, ids).0;
      && RowInv(u) && Evolves(s, u)
      && PresenceRefines(u, if Applies(s, command, path, ids) then accepted[command.machine := command.recognized] else accepted)
  {
    hide RowInv, PresenceRefines, Evolves, PathSound;
    if Applies(s, command, path, ids) {
      AppliedKeeps(s, command, path, ids, accepted);
    } else {
      NotApplied(s, command, path, ids);
      EvolvesReflexive(s);
    }
  }

  /** A report that is not applied changes nothing. */
  lemma NotApplied(s: State, command: Command, path: Path, ids: seq<Id>)
    requires !Applies(s, command, path, ids)
    ensures Reconcile(s, command, path, ids).0 == s
  {
    hide Allocate, Record, ReplacePresence, SetupRequired, Arbitrate;
  }
}
