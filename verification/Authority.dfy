/**
  Spaces, memberships, Machines, Agents and Open Works: the transactions that
  create and end authority, and the reconciliation of a Machine's Agent report.
  A transaction that fails leaves every row as it was.
 */
module Authority {
  import opened Wrappers
  import opened Ids
  import opened Text
  import opened AgentKeys
  import opened AgentName
  import opened ReportCommand

  datatype Space = Space(creator: Id, key: Bytes, digest: Bytes)

  datatype CreationKey = CreationKey(creator: Id, key: Bytes)

  datatype Removal = Removal(actor: Id, successor: Option<Id>, key: Bytes)

  /** A membership is revoked once it records its removal. */
  datatype Membership = Membership(manages: bool, enrolls: bool, removal: Option<Removal>)

  datatype RemovalKey = RemovalKey(space: Id, actor: Id, key: Bytes)

  datatype Revocation = ByUser(user: Id, key: Bytes, digest: Bytes) | ByMachine(key: Bytes, digest: Bytes)

  datatype LastReport = LastReport(id: Id, digest: Bytes, unsupported: seq<Bytes>, setupRequired: seq<Bytes>)

  datatype Machine = Machine(
    space: Id,
    enroller: Id,
    serial: Bytes,
    revocation: Option<Revocation>,
    revision: nat,
    last: Option<LastReport>)

  datatype Agent = Agent(space: Id, machine: Id, owner: Id, binding: Binding, name: Name, removed: bool)

  datatype AgentBinding = AgentBinding(machine: Id, binding: Binding)

  datatype AgentNameKey = AgentNameKey(space: Id, key: Bytes)

  /** Every Work is Open; no other lifecycle exists. */
  datatype Work = Work(space: Id, owner: Id)

  datatype Acceptance = Acceptance(user: Id, alreadyMember: bool, key: Bytes, digest: Bytes)

  datatype Invitation = Invitation(
    space: Id,
    recipient: Bytes,
    manages: bool,
    enrolls: bool,
    expiresAt: int,
    acceptance: Option<Acceptance>,
    revoked: bool)

  /** The rows, with the unique indexes the transactions look them up by. */
  datatype State = State(
    spaces: map<Id, Space>,
    byCreation: map<CreationKey, Id>,
    members: map<Member, Membership>,
    byRemoval: map<RemovalKey, Id>,
    invitations: map<Id, Invitation>,
    machines: map<Id, Machine>,
    agents: map<Id, Agent>,
    presence: map<Id, bool>,
    byBinding: map<AgentBinding, Id>,
    byName: map<AgentNameKey, Id>,
    works: map<Id, Work>)

  datatype Error =
    | Forbidden
    | IdempotencyConflict
    | SlugConflict
    | InvalidMemberRemoval
    | MemberUnavailable
    | RemovalSuccessorInvalid
    | RemovalSuccessorUnexpected
    | RemovalSuccessorRequired
    | LastMemberManager
    | LastMachineEnroller
    | InvalidInvitation
    | InvitationUnavailable
    | InvitationAccepted
    | InvitationRevoked
    | InvitationProofRequired
    | InvitationExpired
    | Unauthenticated
    | MachineUnavailable
    | MachineAuthority
    | ConnectionConflict
    | DatabaseFailure

  datatype ReportFailure =
    | ReportMachineUnavailable
    | ReportMachineRevoked
    | ReportConflict
    | ReportStale(current: nat)
    | ReportTemporarilyUnavailable
    | ReportOutcomeUnknown

  datatype ReportResult = ReportResult(revision: nat, unsupported: seq<Bytes>, setupRequired: seq<Bytes>)

  // ----- Queries -----

  predicate Active(s: State, member: Member) {
    member in s.members && s.members[member].removal.None?
  }

  predicate ActiveManager(s: State, space: Id, user: Id) {
    Active(s, MemberKey(space, user)) && s.members[MemberKey(space, user)].manages
  }

  predicate ActiveEnroller(s: State, space: Id, user: Id) {
    Active(s, MemberKey(space, user)) && s.members[MemberKey(space, user)].enrolls
  }

  /** `CountActiveSpaceAuthorities` counts these two sets. */
  function Managers(s: State, space: Id): set<Id> {
    set m | m in s.members && m.space == space && ActiveManager(s, space, m.user) :: m.user
  }

  function Enrollers(s: State, space: Id): set<Id> {
    set m | m in s.members && m.space == space && ActiveEnroller(s, space, m.user) :: m.user
  }

  function OpenWorksOf(s: State, owner: Member): set<Id> {
    set w | w in s.works && s.works[w].space == owner.space && s.works[w].owner == owner.user
  }

  function ActiveAgentsOfOwner(s: State, owner: Member): set<Id> {
    set a | a in s.agents && !s.agents[a].removed && s.agents[a].space == owner.space && s.agents[a].owner == owner.user
  }

  function ActiveAgentsOfMachine(s: State, machine: Id): set<Id> {
    set a | a in s.agents && !s.agents[a].removed && s.agents[a].machine == machine
  }

  function TakenKeys(s: State, space: Id): set<Bytes> {
    set k | k in s.byName && k.space == space :: k.key
  }

  // ----- Spaces -----

  datatype CreateSpaceCommand = CreateSpaceCommand(user: Id, space: Id, key: Bytes, digest: Bytes)

  datatype CreatedSpace = CreatedSpace(space: Id, manages: bool, enrolls: bool)

  /** `CreateSpace`: the creator is the first member, manager and enroller. */
  function CreateSpace(s: State, command: CreateSpaceCommand, userExists: bool, slugTaken: bool)
    : (State, Result<CreatedSpace, Error>)
  {
    var request := CreationKey(command.user, command.key);
    var creator := MemberKey(command.space, command.user);
    if !userExists then (s, Err(Forbidden))
    else if request in s.byCreation then
      var space := s.byCreation[request];
      if space !in s.spaces || MemberKey(space, command.user) !in s.members then (s, Err(DatabaseFailure))
      else if s.spaces[space].digest != command.digest then (s, Err(IdempotencyConflict))
      else
        var membership := s.members[MemberKey(space, command.user)];
        (s, Ok(CreatedSpace(space, membership.manages, membership.enrolls)))
    else if slugTaken then (s, Err(SlugConflict))
    else if command.space in s.spaces || creator in s.members then (s, Err(DatabaseFailure))
    else
      (s.(spaces := s.spaces[command.space := Space(command.user, command.key, command.digest)],
          byCreation := s.byCreation[request := command.space],
          members := s.members[creator := Membership(true, true, None)]),
       Ok(CreatedSpace(command.space, true, true)))
  }

  // ----- Invitations -----

  /** What the identity tables say about the accepting session, under its locks. */
  datatype Session = Session(user: Id, revoked: bool, emailProof: bool, provedAt: int, expiresAt: int)

  datatype AcceptCommand = AcceptCommand(invitation: Id, user: Id, key: Bytes, digest: Bytes)

  datatype Recipient = Recipient(userExists: bool, session: Option<Session>, emailOwner: Option<Id>)

  datatype Accepted = Accepted(space: Id, manages: bool, enrolls: bool, alreadyMember: bool)

  /** Ten minutes on the database clock, in microseconds. */
  const PROOF_LIFETIME := 10 * 60 * 1_000_000

  function AcceptInvitation(s: State, command: AcceptCommand, recipient: Recipient, now: int)
    : (State, Result<Accepted, Error>)
  {
    if TrimSpace(command.key) == [] || |command.key| > MAX_KEY then (s, Err(InvalidInvitation))
    else if command.invitation !in s.invitations then (s, Err(InvitationUnavailable))
    else if !recipient.userExists || recipient.session.None? then (s, Err(Unauthenticated))
    else if recipient.session.value.user != command.user || recipient.session.value.revoked
    then (s, Err(Unauthenticated))
    else if recipient.emailOwner != Some(command.user) then (s, Err(InvitationUnavailable))
    else
      var invitation := s.invitations[command.invitation];
      if invitation.acceptance.Some? && invitation.acceptance.value.user != command.user
      then (s, Err(InvitationUnavailable))
      else if invitation.acceptance.Some?
              && (invitation.acceptance.value.key != command.key || invitation.acceptance.value.digest != command.digest)
      then (s, Err(InvitationAccepted))
      else if invitation.revoked then (s, Err(InvitationRevoked))
      else AcceptLocked(s, command, recipient.session.value, invitation, now)
  }

  /** Acceptance from the Membership lock on: a replay, an active member, or a new one. */
  function AcceptLocked(s: State, command: AcceptCommand, session: Session, invitation: Invitation, now: int)
    : (State, Result<Accepted, Error>)
  {
    var replay := invitation.acceptance.Some?;
    var member := MemberKey(invitation.space, command.user);
    if !replay && !session.emailProof then (s, Err(InvitationProofRequired))
    else if member in s.members && s.members[member].removal.Some? then (s, Err(InvitationUnavailable))
    else if replay && member !in s.members then (s, Err(InvitationUnavailable))
    else if invitation.space !in s.spaces then (s, Err(DatabaseFailure))
    else
      var membership :=
        if member in s.members then s.members[member] else Membership(invitation.manages, invitation.enrolls, None);
      if session.expiresAt <= now then (s, Err(Unauthenticated))
      else if replay then
        (s, Ok(Accepted(invitation.space, membership.manages, membership.enrolls, invitation.acceptance.value.alreadyMember)))
      else if session.provedAt + PROOF_LIFETIME <= now then (s, Err(InvitationProofRequired))
      else if invitation.expiresAt <= now then (s, Err(InvitationExpired))
      else
        var already := member in s.members;
        (s.(members := s.members[member := membership],
            invitations := s.invitations[command.invitation :=
              invitation.(acceptance := Some(Acceptance(command.user, already, command.key, command.digest)))]),
         Ok(Accepted(invitation.space, membership.manages, membership.enrolls, already)))
  }

  // ----- Member removal -----

  datatype RemoveCommand = RemoveCommand(space: Id, actor: Id, target: Id, successor: Option<Id>, key: Bytes)

  /** `RemoveSpaceMember`: the successor takes every Open Work, and the target's Agents are removed. */
  function RemoveMember(s: State, command: RemoveCommand): (State, Result<(), Error>) {
    match Normalize(command.key, MAX_KEY)
    case None => (s, Err(InvalidMemberRemoval))
    case Some(key) =>
      var target := MemberKey(command.space, command.target);
      var replay := RemovalKey(command.space, command.actor, key);
      if command.space !in s.spaces then (s, Err(MemberUnavailable))
      else if replay in s.byRemoval then
        var removed := MemberKey(command.space, s.byRemoval[replay]);
        if removed !in s.members || s.members[removed].removal.None? then (s, Err(DatabaseFailure))
        else if removed != target || s.members[removed].removal.value.successor != command.successor
        then (s, Err(IdempotencyConflict))
        else (s, Ok(()))
      else
        match RemovalRefused(s, command)
        case Some(error) => (s, Err(error))
        case None =>
          var transferred := if command.successor.Some? then Transfer(s, target, command.successor.value) else s;
          var removed := RemoveAgents(transferred, ActiveAgentsOfOwner(transferred, target));
          var removal := Removal(command.actor, command.successor, key);
          (removed.(members := removed.members[target := removed.members[target].(removal := Some(removal))],
                    byRemoval := removed.byRemoval[replay := command.target]),
           Ok(()))
  }

  /** The guards of a removal that is not a replay, in the order they are checked. */
  function RemovalRefused(s: State, command: RemoveCommand): (refused: Option<Error>)
    ensures refused.None? ==> MemberKey(command.space, command.target) in s.members
  {
    var target := MemberKey(command.space, command.target);
    if !ActiveManager(s, command.space, command.actor) then Some(Forbidden)
    else if !Active(s, target) then Some(MemberUnavailable)
    else if command.successor.Some?
            && (command.successor.value == command.target
                || !Active(s, MemberKey(command.space, command.successor.value)))
    then Some(RemovalSuccessorInvalid)
    else if s.members[target].manages && |Managers(s, command.space)| <= 1 then Some(LastMemberManager)
    else if s.members[target].enrolls && |Enrollers(s, command.space)| <= 1 then Some(LastMachineEnroller)
    else if OpenWorksOf(s, target) == {} && command.successor.Some? then Some(RemovalSuccessorUnexpected)
    else if OpenWorksOf(s, target) != {} && command.successor.None? then Some(RemovalSuccessorRequired)
    else None
  }

  function Transfer(s: State, target: Member, successor: Id): State {
    s.(works := map w | w in s.works ::
      if s.works[w].space == target.space && s.works[w].owner == target.user
      then s.works[w].(owner := successor) else s.works[w])
  }

  /** `RemoveActiveAgents…`: stamps the Agents removed and clears their presence. */
  function RemoveAgents(s: State, removed: set<Id>): State {
    s.(agents := map a | a in s.agents :: if a in removed then s.agents[a].(removed := true) else s.agents[a],
       presence := map a | a in s.presence :: if a in removed then false else s.presence[a])
  }

  // ----- Machines -----

  datatype ConnectCommand = ConnectCommand(machine: Id, space: Id, enroller: Id, serial: Bytes)

  predicate SerialTaken(s: State, serial: Bytes) {
    exists m :: m in s.machines && s.machines[m].serial == serial
  }

  /** `CreateConnectedMachine`, at the end of an approved connection. */
  function ConnectMachine(s: State, command: ConnectCommand): (State, Result<(), Error>) {
    if command.machine in s.machines || SerialTaken(s, command.serial) || command.space !in s.spaces
    then (s, Err(DatabaseFailure))
    else
      (s.(machines := s.machines[command.machine :=
            Machine(command.space, command.enroller, command.serial, None, 0, None)]), Ok(()))
  }

  datatype RevokeCommand = RevokeCommand(space: Id, machine: Id, key: Bytes, digest: Bytes)

  predicate UserRevocationTaken(s: State, user: Id, key: Bytes) {
    exists m :: m in s.machines && s.machines[m].revocation.Some? && s.machines[m].revocation.value.ByUser?
      && s.machines[m].revocation.value.user == user && s.machines[m].revocation.value.key == key
  }

  /** `RevokeMachineFromBrowser`; `session` is the User of the live Browser Session, if there is one. */
  function RevokeFromBrowser(s: State, command: RevokeCommand, session: Option<Id>): (State, Result<Machine, Error>) {
    if session.None? || command.space !in s.spaces then (s, Err(MachineUnavailable))
    else if !ActiveEnroller(s, command.space, session.value) then (s, Err(MachineAuthority))
    else if command.machine !in s.machines || s.machines[command.machine].space != command.space
    then (s, Err(MachineUnavailable))
    else
      match s.machines[command.machine].revocation
      case Some(ByUser(user, key, digest)) =>
        if user == session.value && key == command.key && digest != command.digest then (s, Err(ConnectionConflict))
        else (s, Ok(s.machines[command.machine]))
      case Some(ByMachine(_, _)) => (s, Ok(s.machines[command.machine]))
      case None =>
        if UserRevocationTaken(s, session.value, command.key) then (s, Err(ConnectionConflict))
        else
          var t := Revoke(s, command.machine, ByUser(session.value, command.key, command.digest));
          (t, Ok(t.machines[command.machine]))
  }

  datatype SelfRevokeCommand = SelfRevokeCommand(machine: Id, serial: Bytes, key: Bytes, digest: Bytes)

  /** `RevokeMachineFromHost`. */
  function RevokeFromHost(s: State, command: SelfRevokeCommand): (State, Result<Machine, Error>) {
    if command.machine !in s.machines || s.machines[command.machine].serial != command.serial
    then (s, Err(MachineUnavailable))
    else
      match s.machines[command.machine].revocation
      case Some(ByMachine(key, digest)) =>
        if key == command.key && digest != command.digest then (s, Err(ConnectionConflict))
        else (s, Ok(s.machines[command.machine]))
      case Some(ByUser(_, _, _)) => (s, Ok(s.machines[command.machine]))
      case None =>
        var t := Revoke(s, command.machine, ByMachine(command.key, command.digest));
        (t, Ok(t.machines[command.machine]))
  }

  function Revoke(s: State, machine: Id, revocation: Revocation): (t: State)
    requires machine in s.machines
    ensures machine in t.machines
  {
    var t := RemoveAgents(s, ActiveAgentsOfMachine(s, machine));
    t.(machines := t.machines[machine := t.machines[machine].(revocation := Some(revocation))])
  }

  // ----- Works -----

  /** A Work is opened for an active member, its owner. */
  function OpenWork(s: State, owner: Member, work: Id): (State, Result<(), Error>) {
    if !Active(s, owner) then (s, Err(Forbidden))
    else if work in s.works then (s, Err(DatabaseFailure))
    else (s.(works := s.works[work := Work(owner.space, owner.user)]), Ok(()))
  }

  // ----- Agent reports -----

  /** What the unlocked pre-read of a report saw. */
  datatype Path = Path(space: Id, enroller: Id, needsAllocation: bool)

  predicate Bound(s: State, machine: Id, binding: Binding) {
    AgentBinding(machine, binding) in s.byBinding
  }

  predicate AllBound(s: State, machine: Id, recognized: seq<Recognized>) {
    forall i :: 0 <= i < |recognized| ==> Bound(s, machine, recognized[i].binding)
  }

  /** Phase 1 of `ReconcileAgentPresence`: chooses the lock path without taking any lock. */
  function PreRead(s: State, command: Command): Result<Path, ReportFailure> {
    if command.machine !in s.machines then Err(ReportMachineUnavailable)
    else
      var machine := s.machines[command.machine];
      Ok(Path(machine.space, machine.enroller, !AllBound(s, command.machine, command.recognized)))
  }

  /** Phase 2: the approving membership is looked at only on the allocation path. */
  function ApproverActive(s: State, path: Path): bool {
    !path.needsAllocation || Active(s, MemberKey(path.space, path.enroller))
  }

  /** Phase 3: authentication, exact replay and staleness; None when the report is to be applied. */
  function Arbitrate(s: State, command: Command): (decided: Option<Result<ReportResult, ReportFailure>>)
    ensures decided.None? ==>
      && command.machine in s.machines && s.machines[command.machine].revocation.None?
      && s.machines[command.machine].revision == command.base
  {
    if command.machine !in s.machines || s.machines[command.machine].serial != command.serial
    then Some(Err(ReportMachineUnavailable))
    else
      var machine := s.machines[command.machine];
      if machine.revocation.Some? then Some(Err(ReportMachineRevoked))
      else if machine.last.Some? && machine.last.value.id == command.report then
        if machine.last.value.digest != command.digest then Some(Err(ReportConflict))
        else Some(Ok(ReportResult(machine.revision, machine.last.value.unsupported, machine.last.value.setupRequired)))
      else if command.base != machine.revision then Some(Err(ReportStale(machine.revision)))
      else None
  }

  /** Phases 2 to 6, under locks taken in a fixed order and held to the end. */
  function Reconcile(s: State, command: Command, path: Path, ids: seq<Id>): (State, Result<ReportResult, ReportFailure>) {
    if path.needsAllocation && path.space !in s.spaces then (s, Err(ReportTemporarilyUnavailable))
    else
      match Arbitrate(s, command)
      case Some(result) => (s, result)
      case None =>
        var active := ApproverActive(s, path);
        match Allocate(s, command.machine, path, active, command.recognized, ids, |command.recognized|)
        case Err(failure) => (s, Err(failure))
        case Ok(extended) =>
          var setup := SetupRequired(s, command.machine, active, command.recognized);
          var t := Record(ReplacePresence(extended, command.machine, command.recognized), command, setup);
          (t, Ok(ReportResult(t.machines[command.machine].revision, command.unsupported, setup)))
  }

  /** Phase 5 over the first `n` recognized observations. */
  function Allocate(s: State, machine: Id, path: Path, active: bool, recognized: seq<Recognized>, ids: seq<Id>, n: nat)
    : (r: Result<State, ReportFailure>)
    requires n <= |recognized|
    ensures r.Ok? ==> r.value == s.(agents := r.value.agents, presence := r.value.presence,
                                    byBinding := r.value.byBinding, byName := r.value.byName)
  {
    if n == 0 then Ok(s)
    else
      match Allocate(s, machine, path, active, recognized, ids, n - 1)
      case Err(failure) => Err(failure)
      case Ok(t) =>
        if !active then Ok(t)
        else AllocateOne(t, machine, path, recognized[n - 1], if n - 1 < |ids| then Some(ids[n - 1]) else None)
  }

  /** A missing binding gets one Agent, its name and its absent presence row. */
  function AllocateOne(s: State, machine: Id, path: Path, observation: Recognized, id: Option<Id>)
    : (r: Result<State, ReportFailure>)
    ensures r.Ok? ==> r.value == s.(agents := r.value.agents, presence := r.value.presence,
                                    byBinding := r.value.byBinding, byName := r.value.byName)
  {
    var bound := AgentBinding(machine, observation.binding);
    if bound in s.byBinding then Ok(s)
    else
      match AllocatedName(observation.nameBase, TakenKeys(s, path.space))
      case None => Err(ReportTemporarilyUnavailable)
      case Some(name) =>
        if id.None? || id.value in s.agents || id.value in s.presence then Err(ReportOutcomeUnknown)
        else
          Ok(s.(agents := s.agents[id.value :=
                  Agent(path.space, machine, path.enroller, observation.binding, name, false)],
                presence := s.presence[id.value := false],
                byBinding := s.byBinding[bound := id.value],
                byName := s.byName[AgentNameKey(path.space, name.key) := id.value]))
  }

  function MissingAdapters(s: State, machine: Id, recognized: seq<Recognized>): seq<Bytes> {
    if recognized == [] then []
    else
      var last := recognized[|recognized| - 1];
      MissingAdapters(s, machine, recognized[..|recognized| - 1])
        + if Bound(s, machine, last.binding) then [] else [last.binding.adapter]
  }

  /** The families an inactive approver keeps from getting their Agents, sorted. */
  function SetupRequired(s: State, machine: Id, active: bool, recognized: seq<Recognized>): seq<Bytes> {
    if active then [] else SortedKeys(MissingAdapters(s, machine, recognized))
  }

  /** Phase 6: absent first, then present one by one. */
  function ReplacePresence(s: State, machine: Id, recognized: seq<Recognized>): State {
    s.(presence := SetPresent(s, machine, recognized, |recognized|))
  }

  function SetAbsent(s: State, machine: Id): map<Id, bool> {
    map a | a in s.presence ::
      if a in s.agents && s.agents[a].machine == machine && !s.agents[a].removed then false else s.presence[a]
  }

  function SetPresent(s: State, machine: Id, recognized: seq<Recognized>, n: nat): map<Id, bool>
    requires n <= |recognized|
  {
    if n == 0 then SetAbsent(s, machine)
    else
      var earlier := SetPresent(s, machine, recognized, n - 1);
      var observation := recognized[n - 1];
      var bound := AgentBinding(machine, observation.binding);
      if observation.present && bound in s.byBinding && s.byBinding[bound] in s.agents
         && !s.agents[s.byBinding[bound]].removed && s.byBinding[bound] in earlier
      then earlier[s.byBinding[bound] := true]
      else earlier
  }

  /** `UpdateMachineAgentReport`. */
  function Record(s: State, command: Command, setup: seq<Bytes>): (t: State)
    requires command.machine in s.machines
    ensures command.machine in t.machines
  {
    var machine := s.machines[command.machine];
    s.(machines := s.machines[command.machine := machine.(
      revision := machine.revision + 1,
      last := Some(LastReport(command.report, command.digest, command.unsupported, setup)))])
  }

  // ----- Runs -----

  /** A report between its pre-read and its locks. */
  datatype Pending = Pending(command: Command, path: Path)

  /**
    The rows, the reports in flight, and what each Machine's last accepted report
    listed. No transaction reads the last of these.
   */
  datatype Trace = Trace(rows: State, pending: map<Id, Pending>, accepted: map<Id, seq<Recognized>>)

  datatype Op =
    | OpCreateSpace(create: CreateSpaceCommand, userExists: bool, slugTaken: bool)
    | OpInvite(invitation: Id, offer: Invitation)
    | OpAccept(accept: AcceptCommand, recipient: Recipient, now: int)
    | OpRemove(remove: RemoveCommand)
    | OpConnect(connect: ConnectCommand)
    | OpRevokeFromBrowser(revoke: RevokeCommand, session: Option<Id>)
    | OpRevokeFromHost(selfRevoke: SelfRevokeCommand)
    | OpOpenWork(owner: Member, work: Id)
    | OpPreRead(ticket: Id, command: Command)
    | OpReconcile(ticket: Id, ids: seq<Id>)

  /** Issuing, resending and revoking leave an invitation open, and never touch an accepted one. */
  predicate MayOffer(s: State, invitation: Id, offer: Invitation) {
    offer.acceptance.None? && (invitation in s.invitations ==> s.invitations[invitation].acceptance.None?)
  }

  /** Transactions that a single step commits. */
  function Apply(s: State, op: Op): State {
    match op
    case OpCreateSpace(create, userExists, slugTaken) => CreateSpace(s, create, userExists, slugTaken).0
    case OpInvite(invitation, offer) =>
      if MayOffer(s, invitation, offer) then s.(invitations := s.invitations[invitation := offer]) else s
    case OpAccept(accept, recipient, now) => AcceptInvitation(s, accept, recipient, now).0
    case OpRemove(remove) => RemoveMember(s, remove).0
    case OpConnect(connect) => ConnectMachine(s, connect).0
    case OpRevokeFromBrowser(revoke, session) => RevokeFromBrowser(s, revoke, session).0
    case OpRevokeFromHost(selfRevoke) => RevokeFromHost(s, selfRevoke).0
    case OpOpenWork(owner, work) => OpenWork(s, owner, work).0
    case OpPreRead(_, _) => s
    case OpReconcile(_, _) => s
  }

  /** Whether the locked phases apply the report rather than refuse or replay it. */
  predicate Applies(s: State, command: Command, path: Path, ids: seq<Id>) {
    Arbitrate(s, command).None? && Reconcile(s, command, path, ids).1.Ok?
  }

  function Step(trace: Trace, op: Op): Trace {
    match op
    case OpPreRead(ticket, command) =>
      (match PreRead(trace.rows, command)
       case Err(_) => trace
       case Ok(path) => trace.(pending := trace.pending[ticket := Pending(command, path)]))
    case OpReconcile(ticket, ids) =>
      if ticket !in trace.pending then trace
      else
        var Pending(command, path) := trace.pending[ticket];
        Trace(Reconcile(trace.rows, command, path, ids).0,
              trace.pending - {ticket},
              if Applies(trace.rows, command, path, ids)
              then trace.accepted[command.machine := command.recognized] else trace.accepted)
    case _ => trace.(rows := Apply(trace.rows, op))
  }

  function Run(trace: Trace, ops: seq<Op>): Trace
    decreases |ops|
  {
    if ops == [] then trace else Step(Run(trace, ops[..|ops| - 1]), ops[|ops| - 1])
  }

  const EMPTY_STATE := State(map[], map[], map[], map[], map[], map[], map[], map[], map[], map[], map[])

  const EMPTY := Trace(EMPTY_STATE, map[], map[])
}
