/** What every transaction on memberships, Machines, Agents and Open Works keeps. */
module AuthorityInvariant {
  import opened Wrappers
  import opened Ids
  import opened AgentName
  import opened ReportCommand
  import opened Authority

  // ----- Rows -----

  function BindingOf(agent: Agent): AgentBinding {
    AgentBinding(agent.machine, agent.binding)
  }

  function NameKeyOf(agent: Agent): AgentNameKey {
    AgentNameKey(agent.space, agent.name.key)
  }

  /** A binding of a Machine belongs to one Agent, removed or not. */
  ghost predicate Bindings(s: State) {
    && (forall b {:trigger b in s.byBinding} :: b in s.byBinding ==>
          s.byBinding[b] in s.agents && BindingOf(s.agents[s.byBinding[b]]) == b)
    && (forall a {:trigger a in s.agents} :: a in s.agents ==>
          BindingOf(s.agents[a]) in s.byBinding && s.byBinding[BindingOf(s.agents[a])] == a)
  }

  /** A name of a Space belongs to one Agent, removed or not. */
  ghost predicate Names(s: State) {
    && (forall k {:trigger k in s.byName} :: k in s.byName ==>
          s.byName[k] in s.agents && NameKeyOf(s.agents[s.byName[k]]) == k)
    && (forall a {:trigger a in s.agents} :: a in s.agents ==>
          NameKeyOf(s.agents[a]) in s.byName && s.byName[NameKeyOf(s.agents[a])] == a)
  }

  /** Every Agent has one presence row, and a removed one is never present. */
  ghost predicate PresenceRows(s: State) {
    && (forall a :: a in s.presence <==> a in s.agents)
    && (forall a :: a in s.agents && s.agents[a].removed ==> !s.presence[a])
  }

  /** An Agent lives on its owner's Machine; an active one has an active owner and an unrevoked Machine. */
  ghost predicate HousedAgent(s: State, agent: Agent) {
    && agent.machine in s.machines
    && s.machines[agent.machine].space == agent.space
    && s.machines[agent.machine].enroller == agent.owner
    && (!agent.removed ==>
          s.machines[agent.machine].revocation.None? && Active(s, MemberKey(agent.space, agent.owner)))
  }

  ghost predicate Housed(s: State) {
    forall a {:trigger a in s.agents} :: a in s.agents ==> HousedAgent(s, s.agents[a])
  }

  /** Every Open Work is owned by an active member. */
  ghost predicate WorksOwned(s: State) {
    forall w {:trigger w in s.works} :: w in s.works ==> Active(s, MemberKey(s.works[w].space, s.works[w].owner))
  }

  ghost predicate Governed(s: State, space: Id) {
    (exists u :: ActiveManager(s, space, u)) && (exists u :: ActiveEnroller(s, space, u))
  }

  /** Every Space keeps an active member manager and an active Machine enroller. */
  ghost predicate AllGoverned(s: State) {
    forall space {:trigger space in s.spaces} :: space in s.spaces ==> Governed(s, space)
  }

  /** A removal is found by the request that made it. */
  ghost predicate RemovalsIndexed(s: State) {
    forall k {:trigger k in s.byRemoval} :: k in s.byRemoval ==>
      var m := MemberKey(k.space, s.byRemoval[k]);
      && m in s.members && s.members[m].removal.Some?
      && s.members[m].removal.value.actor == k.actor && s.members[m].removal.value.key == k.key
  }

  ghost predicate RowInv(s: State) {
    && Bindings(s) && Names(s) && PresenceRows(s) && Housed(s)
    && WorksOwned(s) && AllGoverned(s) && RemovalsIndexed(s)
  }

  // ----- Reports in flight, and the snapshot history -----

  /** What a pre-read decided still holds when its transaction takes the locks. */
  ghost predicate PathSound(s: State, pending: Pending) {
    var Pending(command, path) := pending;
    && command.machine in s.machines
    && path.space == s.machines[command.machine].space
    && path.enroller == s.machines[command.machine].enroller
    && (!path.needsAllocation ==> AllBound(s, command.machine, command.recognized))
  }

  ghost predicate PathsSound(trace: Trace) {
    forall t {:trigger t in trace.pending} :: t in trace.pending ==> PathSound(trace.rows, trace.pending[t])
  }

  /** The first `n` observations list the binding as present. */
  ghost predicate ListedUpTo(recognized: seq<Recognized>, n: nat, binding: Binding)
    requires n <= |recognized|
  {
    exists i :: 0 <= i < n && recognized[i].binding == binding && recognized[i].present
  }

  /** The last accepted report of the Machine lists the binding as present. */
  ghost predicate Listed(accepted: map<Id, seq<Recognized>>, bound: AgentBinding) {
    bound.machine in accepted && ListedUpTo(accepted[bound.machine], |accepted[bound.machine]|, bound.binding)
  }

  /** Stored presence is exactly what the last accepted snapshot says. */
  ghost predicate PresenceRefines(s: State, accepted: map<Id, seq<Recognized>>)
    requires PresenceRows(s)
  {
    forall a {:trigger a in s.agents} :: a in s.agents && !s.agents[a].removed ==>
      (s.presence[a] <==> Listed(accepted, BindingOf(s.agents[a])))
  }

  ghost predicate Inv(trace: Trace) {
    RowInv(trace.rows) && PathsSound(trace) && PresenceRefines(trace.rows, trace.accepted)
  }

  // ----- What rows never take back -----

  /** A Machine keeps its Space, enroller and serial; a revocation is final; revisions only grow. */
  ghost predicate MachineAdvances(before: Machine, after: Machine) {
    && after.space == before.space && after.enroller == before.enroller && after.serial == before.serial
    && (before.revocation.Some? ==> after.revocation == before.revocation)
    && before.revision <= after.revision
    && (before.revision == after.revision ==> after.last == before.last)
  }

  ghost predicate MachinesAdvance(s: State, t: State) {
    forall m {:trigger m in s.machines} :: m in s.machines ==>
      m in t.machines && MachineAdvances(s.machines[m], t.machines[m])
  }

  /** A membership keeps its rights; a revoked one stays exactly as it was. */
  ghost predicate MembersAdvance(s: State, t: State) {
    forall m {:trigger m in s.members} :: m in s.members ==>
      && m in t.members
      && t.members[m].manages == s.members[m].manages && t.members[m].enrolls == s.members[m].enrolls
      && (s.members[m].removal.Some? ==> t.members[m] == s.members[m])
  }

  /** An Agent keeps everything but its lifecycle, which only ends. */
  ghost predicate AgentsAdvance(s: State, t: State) {
    && (forall a {:trigger a in s.agents} :: a in s.agents ==>
          && a in t.agents && t.agents[a].(removed := s.agents[a].removed) == s.agents[a]
          && (s.agents[a].removed ==> t.agents[a].removed))
    && (forall b {:trigger b in s.byBinding} :: b in s.byBinding ==> b in t.byBinding && t.byBinding[b] == s.byBinding[b])
    && (forall k {:trigger k in s.byName} :: k in s.byName ==> k in t.byName && t.byName[k] == s.byName[k])
  }

  ghost predicate WorksKept(s: State, t: State) {
    forall w {:trigger w in s.works} :: w in s.works ==> w in t.works && t.works[w].space == s.works[w].space
  }

  ghost predicate RemovalsKept(s: State, t: State) {
    forall k {:trigger k in s.byRemoval} :: k in s.byRemoval ==> k in t.byRemoval && t.byRemoval[k] == s.byRemoval[k]
  }

  ghost predicate SpacesKept(s: State, t: State) {
    forall c {:trigger c in s.spaces} :: c in s.spaces ==> c in t.spaces && t.spaces[c] == s.spaces[c]
  }

  ghost predicate Evolves(s: State, t: State) {
    && MachinesAdvance(s, t) && MembersAdvance(s, t) && AgentsAdvance(s, t)
    && WorksKept(s, t) && RemovalsKept(s, t) && SpacesKept(s, t)
  }

  lemma EvolvesReflexive(s: State)
    ensures Evolves(s, s)
  {}

  lemma EvolvesTransitive(s: State, t: State, u: State)
    requires Evolves(s, t) && Evolves(t, u)
    ensures Evolves(s, u)
  {
    MachinesTransitive(s, t, u);
    MembersTransitive(s, t, u);
    AgentsTransitive(s, t, u);
    hide MachinesAdvance, MembersAdvance, AgentsAdvance;
  }

  lemma MachinesTransitive(s: State, t: State, u: State)
    requires MachinesAdvance(s, t) && MachinesAdvance(t, u)
    ensures MachinesAdvance(s, u)
  {}

  lemma MembersTransitive(s: State, t: State, u: State)
    requires MembersAdvance(s, t) && MembersAdvance(t, u)
    ensures MembersAdvance(s, u)
  {}

  lemma AgentsTransitive(s: State, t: State, u: State)
    requires AgentsAdvance(s, t) && AgentsAdvance(t, u)
    ensures AgentsAdvance(s, u)
  {}

  /** Bindings are never deleted, so a pre-read that found them all keeps being right. */
  lemma PathStaysSound(s: State, t: State, pending: Pending)
    requires PathSound(s, pending) && MachinesAdvance(s, t) && AgentsAdvance(s, t)
    ensures PathSound(t, pending)
  {
    var Pending(command, path) := pending;
    assert MachineAdvances(s.machines[command.machine], t.machines[command.machine]);
    if !path.needsAllocation {
      forall i | 0 <= i < |command.recognized| ensures Bound(t, command.machine, command.recognized[i].binding) {
        assert Bound(s, command.machine, command.recognized[i].binding);
      }
    }
  }
}
