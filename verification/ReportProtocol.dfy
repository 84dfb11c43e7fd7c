/**
  Agent reports over a network that loses, duplicates and delays: Hosts issue
  reports and retry the exact body, the server arbitrates them one transaction
  at a time, and Hosts may restart with nothing remembered.
 */
module ReportProtocol {
  import opened Wrappers
  import opened Ids
  import opened Text
  import opened AgentKeys
  import opened AgentName
  import opened ReportCommand
  import opened Authority
  import opened AuthorityInvariant
  import opened AuthorityRuns
  import opened AuthorityTheorems

  /** One Host process: the revision it will base its next report on, and the report it waits for. */
  datatype Reporter = Reporter(machine: Id, revision: nat, outstanding: Option<Id>)

  datatype Reply = Reply(report: Id, result: Result<ReportResult, ReportFailure>)

  /** A report the server applied, with its answer. */
  datatype Entry = Entry(report: Id, result: ReportResult)

  /**
    `issued` are the bodies ever put on the network and `replies` the answers ever
    sent; both only grow, so any of them may arrive again at any time. `log` is
    the history of applied reports of each Machine; no step reads it.
   */
  datatype World = World(
    vocabulary: Vocabulary,
    server: Trace,
    reporters: map<Id, Reporter>,
    issued: map<Id, Command>,
    replies: set<Reply>,
    log: map<Id, seq<Entry>>)

  function Log(world: World, machine: Id): seq<Entry> {
    if machine in world.log then world.log[machine] else []
  }

  function Revision(s: State, machine: Id): nat {
    if machine in s.machines then s.machines[machine].revision else 0
  }

  /** What an answer does to the process that waits for it; only undecided failures keep the body. */
  function Answered(reporter: Reporter, result: Result<ReportResult, ReportFailure>): Reporter {
    match result
    case Ok(accepted) => reporter.(revision := accepted.revision, outstanding := None)
    case Err(ReportStale(current)) => reporter.(revision := current, outstanding := None)
    case Err(ReportTemporarilyUnavailable) => reporter
    case Err(ReportOutcomeUnknown) => reporter
    case Err(_) => reporter.(outstanding := None)
  }

  datatype Event =
    | Start(host: Id, machine: Id)
    | Issue(host: Id, request: Request)
    | Deliver(ticket: Id, report: Id)
    | Finish(ticket: Id, ids: seq<Id>)
    | Receive(host: Id, reply: Reply)
    | Other(op: Op)

  /** Transactions that do not belong to a report. */
  predicate Foreign(op: Op) {
    !op.OpPreRead? && !op.OpReconcile?
  }

  /** A report identity is new, and a process has one report outstanding, based on the revision it knows. */
  predicate MayIssue(world: World, host: Id, request: Request) {
    && host in world.reporters && world.reporters[host].outstanding.None?
    && request.machine == world.reporters[host].machine
    && request.base == world.reporters[host].revision
    && request.report !in world.issued
    && Canonical(request, world.vocabulary).Ok?
  }

  function Next(world: World, event: Event): World {
    match event
    case Start(host, machine) => world.(reporters := world.reporters[host := Reporter(machine, 0, None)])
    case Issue(host, request) =>
      if !MayIssue(world, host, request) then world
      else
        world.(issued := world.issued[request.report := Canonical(request, world.vocabulary).value],
               reporters := world.reporters[host := world.reporters[host].(outstanding := Some(request.report))])
    case Deliver(ticket, report) =>
      if report !in world.issued then world
      else
        (match PreRead(world.server.rows, world.issued[report])
         case Err(failure) => world.(replies := world.replies + {Reply(report, Err(failure))})
         case Ok(_) => world.(server := Step(world.server, OpPreRead(ticket, world.issued[report]))))
    case Finish(ticket, ids) =>
      if ticket !in world.server.pending then world else FinishReport(world, ticket, ids)
    case Receive(host, reply) =>
      if host in world.reporters && reply in world.replies && world.reporters[host].outstanding == Some(reply.report)
      then world.(reporters := world.reporters[host := Answered(world.reporters[host], reply.result)])
      else world
    case Other(op) => if Foreign(op) then world.(server := Step(world.server, op)) else world
  }

  function FinishReport(world: World, ticket: Id, ids: seq<Id>): World
    requires ticket in world.server.pending
  {
    var Pending(command, path) := world.server.pending[ticket];
    var result := Reconcile(world.server.rows, command, path, ids).1;
    var answered := world.(
      server := Step(world.server, OpReconcile(ticket, ids)),
      replies := world.replies + {Reply(command.report, result)});
    if Applies(world.server.rows, command, path, ids)
    then answered.(log := world.log[command.machine := Log(world, command.machine) + [Entry(command.report, result.value)]])
    else answered
  }

  function History(world: World, events: seq<Event>): World
    decreases |events|
  {
    if events == [] then world else Next(History(world, events[..|events| - 1]), events[|events| - 1])
  }

  function Quiet(vocabulary: Vocabulary): World {
    World(vocabulary, EMPTY, map[], map[], {}, map[])
  }

  // ----- Invariant -----

  /** Issued bodies come from canonical requests, and their base was some revision the server had. */
  ghost predicate IssuedWell(world: World) {
    forall id {:trigger id in world.issued} :: id in world.issued ==>
      && world.issued[id].report == id
      && 0 <= world.issued[id].base <= Revision(world.server.rows, world.issued[id].machine)
      && FromRequest(world.issued[id], world.vocabulary)
  }

  ghost predicate FromRequest(command: Command, vocabulary: Vocabulary) {
    exists request :: Canonical(request, vocabulary) == Ok(command)
  }

  /** Every transaction in flight carries an issued body. */
  ghost predicate PendingIssued(world: World) {
    forall ticket {:trigger ticket in world.server.pending} :: ticket in world.server.pending ==>
      var command := world.server.pending[ticket].command;
      command.report in world.issued && world.issued[command.report] == command
  }

  /** The `i`-th applied report of a Machine was based on revision `i` and answered `i + 1`. */
  ghost predicate LogEntry(world: World, machine: Id, i: nat)
    requires i < |Log(world, machine)|
  {
    var entry := Log(world, machine)[i];
    && entry.report in world.issued
    && world.issued[entry.report].machine == machine
    && world.issued[entry.report].base == i
    && entry.result.revision == i + 1
    && ValidReportKeys(entry.result.unsupported) && ValidReportKeys(entry.result.setupRequired)
  }

  ghost predicate Logged(world: World) {
    forall machine, i {:trigger LogEntry(world, machine, i)} :: 0 <= i < |Log(world, machine)| ==> LogEntry(world, machine, i)
  }

  /** A Machine's stored revision and last report are those of its history. */
  ghost predicate StoredMatches(world: World, machine: Id)
    requires machine in world.server.rows.machines
  {
    var row, log := world.server.rows.machines[machine], Log(world, machine);
    && |log| == row.revision
    && (row.last.Some? <==> row.revision > 0)
    && (row.last.Some? ==>
          && log[|log| - 1] == Entry(row.last.value.id,
               ReportResult(row.revision, row.last.value.unsupported, row.last.value.setupRequired))
          && row.last.value.id in world.issued
          && world.issued[row.last.value.id].digest == row.last.value.digest)
  }

  ghost predicate Stored(world: World) {
    && (forall machine {:trigger StoredMatches(world, machine)} ::
          machine in world.server.rows.machines ==> StoredMatches(world, machine))
    && (forall machine :: machine in world.log ==> machine in world.server.rows.machines)
  }

  /** An acceptance is the logged answer of its report; a stale answer names a later revision. */
  ghost predicate ReplyTrue(world: World, reply: Reply) {
    && reply.report in world.issued
    && var command := world.issued[reply.report];
       match reply.result
       case Ok(result) =>
         0 <= command.base < |Log(world, command.machine)|
         && Log(world, command.machine)[command.base] == Entry(reply.report, result)
       case Err(ReportStale(current)) => command.base < current <= Revision(world.server.rows, command.machine)
       case Err(ReportConflict) => false
       case Err(_) => true
  }

  ghost predicate RepliesTrue(world: World) {
    forall reply {:trigger reply in world.replies} :: reply in world.replies ==> ReplyTrue(world, reply)
  }

  /** A process never knows a revision the server has not reached. */
  ghost predicate ReporterKnows(world: World, reporter: Reporter) {
    && reporter.revision <= Revision(world.server.rows, reporter.machine)
    && (reporter.outstanding.Some? ==>
          && reporter.outstanding.value in world.issued
          && world.issued[reporter.outstanding.value].machine == reporter.machine
          && world.issued[reporter.outstanding.value].base == reporter.revision)
  }

  ghost predicate ReportersKnow(world: World) {
    forall host {:trigger host in world.reporters} :: host in world.reporters ==> ReporterKnows(world, world.reporters[host])
  }

  ghost predicate WorldInv(world: World) {
    && Inv(world.server) && IssuedWell(world) && PendingIssued(world) && Logged(world) && Stored(world)
    && RepliesTrue(world) && ReportersKnow(world)
  }

  // ----- Preservation -----

  /** Bodies, answers, applied reports and revisions only accumulate. */
  ghost predicate Grows(world: World, later: World) {
    && later.vocabulary == world.vocabulary
    && (forall id {:trigger id in world.issued} :: id in world.issued ==>
          id in later.issued && later.issued[id] == world.issued[id])
    && (forall machine :: Log(world, machine) <= Log(later, machine))
    && (forall machine :: Revision(world.server.rows, machine) <= Revision(later.server.rows, machine))
  }

  lemma ReplyStaysTrue(world: World, later: World, reply: Reply)
    requires ReplyTrue(world, reply) && Grows(world, later)
    ensures ReplyTrue(later, reply)
  {
    var machine := world.issued[reply.report].machine;
    assert Log(world, machine) <= Log(later, machine);
  }

  lemma RepliesStayTrue(world: World, later: World)
    requires RepliesTrue(world) && Grows(world, later) && later.replies == world.replies
    ensures RepliesTrue(later)
  {
    hide ReplyTrue, Grows;
    forall reply | reply in later.replies ensures ReplyTrue(later, reply) {
      ReplyStaysTrue(world, later, reply);
    }
  }

  lemma RepliesStayTrueWith(world: World, later: World, reply: Reply)
    requires RepliesTrue(world) && Grows(world, later) && later.replies == world.replies + {reply}
    requires ReplyTrue(later, reply)
    ensures RepliesTrue(later)
  {
    hide ReplyTrue, Grows;
    forall other | other in later.replies ensures ReplyTrue(later, other) {
      if other != reply { ReplyStaysTrue(world, later, other); }
    }
  }

  lemma ReportersStayKnowing(world: World, later: World)
    requires ReportersKnow(world) && Grows(world, later) && later.reporters == world.reporters
    ensures ReportersKnow(later)
  {
    forall host | host in later.reporters ensures ReporterKnows(later, later.reporters[host]) {
      assert ReporterKnows(world, world.reporters[host]);
    }
  }

  lemma IssuedStaysWell(world: World, later: World)
    requires IssuedWell(world) && Grows(world, later) && later.issued == world.issued
    ensures IssuedWell(later)
  {
    hide FromRequest;
  }

  lemma LoggedStays(world: World, later: World)
    requires Logged(world) && Grows(world, later) && later.log == world.log
    ensures Logged(later)
  {
    hide ValidReportKeys;
    forall machine, i | 0 <= i < |Log(later, machine)| ensures LogEntry(later, machine, i) {
      assert LogEntry(world, machine, i);
    }
  }

  lemma StoredStays(world: World, later: World)
    requires Stored(world) && Grows(world, later) && later.log == world.log
    requires forall m :: m in world.server.rows.machines ==> m in later.server.rows.machines
    requires forall m :: m in later.server.rows.machines ==>
      if m in world.server.rows.machines
      then later.server.rows.machines[m].revision == world.server.rows.machines[m].revision
           && later.server.rows.machines[m].last == world.server.rows.machines[m].last
      else later.server.rows.machines[m].revision == 0 && later.server.rows.machines[m].last.None?
    ensures Stored(later)
  {
    forall m | m in later.server.rows.machines ensures StoredMatches(later, m) {
      if m in world.server.rows.machines { assert StoredMatches(world, m); }
    }
  }

  // ----- Events that leave the server alone -----

  lemma StartKeeps(world: World, host: Id, machine: Id)
    requires WorldInv(world)
    ensures WorldInv(Next(world, Start(host, machine)))
  {
    hide Inv, ReplyTrue, LogEntry, StoredMatches, FromRequest;
    var later := Next(world, Start(host, machine));
    RepliesStayTrue(world, later);
    LoggedStays(world, later);
    StoredStays(world, later);
    forall h | h in later.reporters ensures ReporterKnows(later, later.reporters[h]) {
      if h != host { assert ReporterKnows(world, world.reporters[h]); }
    }
  }

  lemma IssueGrows(world: World, host: Id, request: Request)
    ensures Grows(world, Next(world, Issue(host, request)))
  {
    hide Canonical;
  }

  lemma IssueKeeps(world: World, host: Id, request: Request)
    requires WorldInv(world)
    ensures WorldInv(Next(world, Issue(host, request)))
  {
    hide Inv, ReplyTrue, LogEntry, StoredMatches, Canonical, Grows, RepliesTrue, Logged, Stored;
    var later := Next(world, Issue(host, request));
    IssueGrows(world, host, request);
    if MayIssue(world, host, request) {
      CommandOf(request, world.vocabulary);
      RepliesStayTrue(world, later);
      LoggedStays(world, later);
      StoredStays(world, later);
      IssueReporters(world, host, request);
      IssueWell(world, host, request);
    }
  }

  lemma CommandOf(request: Request, vocabulary: Vocabulary)
    requires Canonical(request, vocabulary).Ok?
    ensures var command := Canonical(request, vocabulary).value;
      command.machine == request.machine && command.serial == request.serial
      && command.report == request.report && command.base == request.base >= 0
  {
    hide Sort, ScanTo, ReportDigest, SortedKeys, TrimSpace;
  }

  lemma IssueReporters(world: World, host: Id, request: Request)
    requires ReportersKnow(world) && MayIssue(world, host, request)
    ensures ReportersKnow(Next(world, Issue(host, request)))
  {
    hide Canonical;
    CommandOf(request, world.vocabulary);
    var later := Next(world, Issue(host, request));
    forall h | h in later.reporters ensures ReporterKnows(later, later.reporters[h]) {
      assert ReporterKnows(world, world.reporters[h]);
    }
  }

  lemma IssueWell(world: World, host: Id, request: Request)
    requires ReportersKnow(world) && IssuedWell(world) && PendingIssued(world) && MayIssue(world, host, request)
    ensures IssuedWell(Next(world, Issue(host, request))) && PendingIssued(Next(world, Issue(host, request)))
  {
    hide Canonical;
    CommandOf(request, world.vocabulary);
    assert ReporterKnows(world, world.reporters[host]);
    assert FromRequest(Canonical(request, world.vocabulary).value, world.vocabulary);
    hide FromRequest;
  }

  /** An answer never moves a process backwards, and a stale one moves it forward. */
  lemma AnswerRaises(world: World, host: Id, reply: Reply)
    requires WorldInv(world) && host in world.reporters && reply in world.replies
    requires world.reporters[host].outstanding == Some(reply.report)
    ensures var before, after := world.reporters[host], Answered(world.reporters[host], reply.result);
      && ReporterKnows(world, after)
      && before.revision <= after.revision
      && (reply.result.Ok? ==> after.revision == before.revision + 1)
      && (reply.result.Err? && reply.result.error.ReportStale? ==> before.revision < after.revision)
  {
    hide Inv, FromRequest, IssuedWell, PendingIssued, Stored, ValidReportKeys;
    assert ReporterKnows(world, world.reporters[host]);
    assert ReplyTrue(world, reply);
    if reply.result.Ok? {
      var machine := world.reporters[host].machine;
      assert LogEntry(world, machine, world.issued[reply.report].base);
      HistoryLength(world, machine);
    }
  }

  /** The history of a Machine is as long as its revision. */
  lemma HistoryLength(world: World, machine: Id)
    requires Stored(world)
    ensures |Log(world, machine)| == Revision(world.server.rows, machine)
  {
    if machine in world.server.rows.machines { assert StoredMatches(world, machine); }
  }

  lemma ReceiveKeeps(world: World, host: Id, reply: Reply)
    requires WorldInv(world)
    ensures WorldInv(Next(world, Receive(host, reply)))
  {
    hide Inv, ReplyTrue, LogEntry, StoredMatches, FromRequest, Answered, ReporterKnows;
    var later := Next(world, Receive(host, reply));
    if later != world {
      AnswerRaises(world, host, reply);
      RepliesStayTrue(world, later);
      LoggedStays(world, later);
      StoredStays(world, later);
      ReportersUpdated(world, host, Answered(world.reporters[host], reply.result));
    }
  }

  lemma ReportersUpdated(world: World, host: Id, reporter: Reporter)
    requires ReportersKnow(world) && ReporterKnows(world, reporter)
    ensures ReportersKnow(world.(reporters := world.reporters[host := reporter]))
  {
    var later := world.(reporters := world.reporters[host := reporter]);
    forall h | h in later.reporters ensures ReporterKnows(later, later.reporters[h]) {
      if h != host { assert ReporterKnows(world, world.reporters[h]); }
    }
  }

  // ----- Events that run a transaction -----

  /** Nothing about reports changed, except that a new Machine starts at revision 0. */
  ghost predicate ReportsKept(s: State, t: State) {
    && (forall m :: m in s.machines ==> m in t.machines)
    && (forall m :: m in t.machines ==>
          if m in s.machines then t.machines[m].revision == s.machines[m].revision && t.machines[m].last == s.machines[m].last
          else t.machines[m].revision == 0 && t.machines[m].last.None?)
  }

  lemma RevokeKeepsReports(s: State, machine: Id, revocation: Revocation)
    requires machine in s.machines
    ensures ReportsKept(s, Revoke(s, machine, revocation))
  {
    hide ActiveAgentsOfMachine;
  }

  lemma RevokersKeepReports(s: State, op: Op)
    requires op.OpRevokeFromBrowser? || op.OpRevokeFromHost?
    ensures ReportsKept(s, Apply(s, op))
  {
    hide Revoke, UserRevocationTaken, ActiveEnroller;
    if Apply(s, op) != s {
      hide ReportsKept;
      if op.OpRevokeFromBrowser? {
        RevokeKeepsReports(s, op.revoke.machine, ByUser(op.session.value, op.revoke.key, op.revoke.digest));
      } else {
        RevokeKeepsReports(s, op.selfRevoke.machine, ByMachine(op.selfRevoke.key, op.selfRevoke.digest));
      }
    }
  }

  lemma RemovalKeepsReports(s: State, command: RemoveCommand)
    ensures RemoveMember(s, command).0.machines == s.machines
  {
    hide RemovalRefused, Normalize, ActiveAgentsOfOwner;
  }

  lemma ForeignKeepsReports(s: State, op: Op)
    requires Foreign(op)
    ensures ReportsKept(s, Apply(s, op))
  {
    hide TrimSpace, SerialTaken, Active, RemoveMember, RevokeFromBrowser, RevokeFromHost;
    assert ReportsKept(s, s);
    match op
    case OpRemove(remove) => RemovalKeepsReports(s, remove);
    case OpRevokeFromBrowser(_, _) => RevokersKeepReports(s, op);
    case OpRevokeFromHost(_) => RevokersKeepReports(s, op);
    case _ =>
  }

  lemma RevisionsAdvance(s: State, t: State)
    requires Evolves(s, t)
    ensures forall machine :: Revision(s, machine) <= Revision(t, machine)
  {
    hide MembersAdvance, AgentsAdvance, WorksKept, RemovalsKept, SpacesKept;
    forall machine ensures Revision(s, machine) <= Revision(t, machine) {
      if machine in s.machines { assert MachineAdvances(s.machines[machine], t.machines[machine]); }
    }
  }

  lemma OtherKeeps(world: World, op: Op)
    requires WorldInv(world)
    ensures WorldInv(Next(world, Other(op)))
  {
    hide Inv, ReplyTrue, LogEntry, StoredMatches, FromRequest, ReporterKnows, Apply, Evolves;
    if Foreign(op) {
      var later := Next(world, Other(op));
      StepKeepsInv(world.server, op);
      RevisionsAdvance(world.server.rows, later.server.rows);
      ForeignKeepsReports(world.server.rows, op);
      hide Revision, Log, Next;
      ForeignGrows(world, op);
      RepliesStayTrue(world, later);
      LoggedStays(world, later);
      StoredStays(world, later);
      ReportersStayKnowing(world, later);
      IssuedStaysWell(world, later);
    }
  }

  lemma ForeignGrows(world: World, op: Op)
    requires Foreign(op)
    requires forall machine ::
      Revision(world.server.rows, machine) <= Revision(Next(world, Other(op)).server.rows, machine)
    ensures Grows(world, Next(world, Other(op)))
    ensures var later := Next(world, Other(op));
      && later == world.(server := Step(world.server, op))
      && later.server == world.server.(rows := Apply(world.server.rows, op))
  {
    hide Apply, Revision;
  }

  lemma DeliverKeeps(world: World, ticket: Id, report: Id)
    requires WorldInv(world)
    ensures WorldInv(Next(world, Deliver(ticket, report)))
  {
    hide Inv, ReplyTrue, LogEntry, StoredMatches, FromRequest, ReporterKnows, PreRead, Evolves, Grows, Revision, Log,
      Logged, ReportersKnow, IssuedWell, RepliesTrue;
    if report in world.issued {
      var command := world.issued[report];
      var later := Next(world, Deliver(ticket, report));
      StepKeepsInv(world.server, OpPreRead(ticket, command));
      IssuedIdentity(world, report);
      DeliverGrows(world, ticket, report);
      hide Stored;
      LoggedStays(world, later);
      StoredStays(world, later);
      ReportersStayKnowing(world, later);
      IssuedStaysWell(world, later);
      if PreRead(world.server.rows, command).Err? {
        var reply := Reply(report, Err(PreRead(world.server.rows, command).error));
        UnavailableIsTrue(later, reply, command);
        RepliesStayTrueWith(world, later, reply);
      } else {
        RepliesStayTrue(world, later);
      }
    }
  }

  lemma IssuedIdentity(world: World, report: Id)
    requires IssuedWell(world) && report in world.issued
    ensures world.issued[report].report == report
  {}

  lemma DeliverGrows(world: World, ticket: Id, report: Id)
    ensures Grows(world, Next(world, Deliver(ticket, report)))
    ensures Next(world, Deliver(ticket, report)).server.rows == world.server.rows
  {}

  lemma UnavailableIsTrue(world: World, reply: Reply, command: Command)
    requires reply.report in world.issued
    requires PreRead(world.server.rows, command).Err?
    requires reply.result == Err(PreRead(world.server.rows, command).error)
    ensures ReplyTrue(world, reply)
  {}

  // ----- Finishing a report -----

  /** The three ways a finished report can be answered. */
  lemma FinishedResult(s: State, command: Command, path: Path, ids: seq<Id>)
    ensures var r := Reconcile(s, command, path, ids).1;
      if Applies(s, command, path, ids) then
        && r.Ok? && command.machine in s.machines && command.base == s.machines[command.machine].revision
        && r.value.revision == command.base + 1
        && var t := Reconcile(s, command, path, ids).0;
           && t.machines == s.machines[command.machine := t.machines[command.machine]]
           && t.machines[command.machine].revision == command.base + 1
           && t.machines[command.machine].last
              == Some(LastReport(command.report, command.digest, r.value.unsupported, r.value.setupRequired))
      else
        && Reconcile(s, command, path, ids).0 == s
        && (r.Ok? ==>
              && command.machine in s.machines
              && var row := s.machines[command.machine];
                 && row.last.Some? && row.last.value.id == command.report && row.last.value.digest == command.digest
                 && r.value == ReportResult(row.revision, row.last.value.unsupported, row.last.value.setupRequired))
        && (r == Err(ReportConflict) ==>
              && command.machine in s.machines
              && var row := s.machines[command.machine];
                 row.last.Some? && row.last.value.id == command.report && row.last.value.digest != command.digest)
        && (r.Err? && r.error.ReportStale? ==>
              && command.machine in s.machines
              && command.base != s.machines[command.machine].revision == r.error.current)
  {
    hide SetupRequired, SetPresent, ApproverActive;
    if Arbitrate(s, command).None? {
      AllocateFailsSoftly(s, command.machine, path, ApproverActive(s, path), command.recognized, ids, |command.recognized|);
    }
    hide Allocate;
  }

  lemma {:induction false} AllocateFailsSoftly(s: State, machine: Id, path: Path, active: bool,
                                              recognized: seq<Recognized>, ids: seq<Id>, n: nat)
    requires n <= |recognized|
    ensures var r := Allocate(s, machine, path, active, recognized, ids, n);
      r.Err? ==> r.error == ReportTemporarilyUnavailable || r.error == ReportOutcomeUnknown
  {
    if n > 0 {
      AllocateFailsSoftly(s, machine, path, active, recognized, ids, n - 1);
      hide AllocatedName;
    }
  }

  lemma UnappliedKeeps(world: World, ticket: Id, ids: seq<Id>)
    requires WorldInv(world) && ticket in world.server.pending
    requires var Pending(command, path) := world.server.pending[ticket]; !Applies(world.server.rows, command, path, ids)
    ensures WorldInv(FinishReport(world, ticket, ids))
  {
    hide Inv, ReplyTrue, LogEntry, StoredMatches, FromRequest, ReporterKnows, Applies, Reconcile, Evolves;
    var Pending(command, path) := world.server.pending[ticket];
    var later := FinishReport(world, ticket, ids);
    StepKeepsInv(world.server, OpReconcile(ticket, ids));
    FinishedResult(world.server.rows, command, path, ids);
    LoggedStays(world, later);
    StoredStays(world, later);
    ReportersStayKnowing(world, later);
    IssuedStaysWell(world, later);
    var reply := Reply(command.report, Reconcile(world.server.rows, command, path, ids).1);
    UnappliedReplyTrue(world, command, path, ids);
    ReplyStaysTrue(world, later, reply);
    RepliesStayTrueWith(world, later, reply);
  }

  /** A replay repeats the logged answer, and a refusal is stale only below the stored revision. */
  lemma UnappliedReplyTrue(world: World, command: Command, path: Path, ids: seq<Id>)
    requires WorldInv(world) && command.report in world.issued && world.issued[command.report] == command
    requires !Applies(world.server.rows, command, path, ids)
    ensures ReplyTrue(world, Reply(command.report, Reconcile(world.server.rows, command, path, ids).1))
  {
    hide Inv, FromRequest, ReporterKnows, Applies, Reconcile, ValidReportKeys;
    FinishedResult(world.server.rows, command, path, ids);
    if command.machine in world.server.rows.machines {
      assert StoredMatches(world, command.machine);
      var row := world.server.rows.machines[command.machine];
      if row.revision > 0 {
        assert LogEntry(world, command.machine, row.revision - 1);
      }
    }
  }

  lemma AppliedKeepsWorld(world: World, ticket: Id, ids: seq<Id>)
    requires WorldInv(world) && ticket in world.server.pending
    requires var Pending(command, path) := world.server.pending[ticket]; Applies(world.server.rows, command, path, ids)
    ensures WorldInv(FinishReport(world, ticket, ids))
  {
    hide Inv, ReplyTrue, LogEntry, FromRequest, ReporterKnows, Applies, Reconcile, Evolves, Stored, Logged;
    var Pending(command, path) := world.server.pending[ticket];
    var later := FinishReport(world, ticket, ids);
    StepKeepsInv(world.server, OpReconcile(ticket, ids));
    RevisionsAdvance(world.server.rows, later.server.rows);
    FinishedResult(world.server.rows, command, path, ids);
    AppliedLog(world, ticket, ids);
    hide Revision, Log;
    ReportersStayKnowing(world, later);
    IssuedStaysWell(world, later);
    RepliesStayTrueWith(world, later, Reply(command.report, Reconcile(world.server.rows, command, path, ids).1));
  }

  /** What finishing an applied report changes. */
  lemma AppliedChanges(world: World, ticket: Id, ids: seq<Id>)
    requires ticket in world.server.pending
    requires var Pending(command, path) := world.server.pending[ticket]; Applies(world.server.rows, command, path, ids)
    ensures var later := FinishReport(world, ticket, ids);
      var Pending(command, path) := world.server.pending[ticket];
      var result := Reconcile(world.server.rows, command, path, ids).1;
      && later.vocabulary == world.vocabulary && later.issued == world.issued && later.reporters == world.reporters
      && result.Ok?
      && later.server.rows == Reconcile(world.server.rows, command, path, ids).0
      && Log(later, command.machine) == Log(world, command.machine) + [Entry(command.report, result.value)]
      && (forall machine :: machine != command.machine ==> Log(later, machine) == Log(world, machine))
      && (forall machine :: machine in later.log ==> machine == command.machine || machine in world.log)
  {
    hide Applies, Reconcile;
    var Pending(command, path) := world.server.pending[ticket];
    FinishedResult(world.server.rows, command, path, ids);
  }

  lemma AppliedLog(world: World, ticket: Id, ids: seq<Id>)
    requires WorldInv(world) && ticket in world.server.pending
    requires var Pending(command, path) := world.server.pending[ticket]; Applies(world.server.rows, command, path, ids)
    requires forall machine ::
      Revision(world.server.rows, machine) <= Revision(FinishReport(world, ticket, ids).server.rows, machine)
    ensures var later := FinishReport(world, ticket, ids);
      var Pending(command, path) := world.server.pending[ticket];
      && Grows(world, later) && Logged(later) && Stored(later)
      && ReplyTrue(later, Reply(command.report, Reconcile(world.server.rows, command, path, ids).1))
  {
    hide Inv, FromRequest, ReporterKnows, Applies, Reconcile, Evolves, ValidReportKeys, RepliesTrue, ReportersKnow,
      FinishReport, Logged, Stored, LogEntry, StoredMatches;
    var Pending(command, path) := world.server.pending[ticket];
    var later := FinishReport(world, ticket, ids);
    AppliedChanges(world, ticket, ids);
    FinishedResult(world.server.rows, command, path, ids);
    AppliedAcceptable(world, command, path, ids);
    var result := Reconcile(world.server.rows, command, path, ids).1.value;
    HistoryLength(world, command.machine);
    LoggedExtends(world, later, command.machine, Entry(command.report, result));
    StoredExtends(world, later, command.machine, Entry(command.report, result));
  }

  lemma LoggedExtends(world: World, later: World, machine: Id, entry: Entry)
    requires Logged(world) && later.issued == world.issued
    requires Log(later, machine) == Log(world, machine) + [entry]
    requires forall other :: other != machine ==> Log(later, other) == Log(world, other)
    requires entry.report in world.issued && world.issued[entry.report].machine == machine
    requires world.issued[entry.report].base == |Log(world, machine)| && entry.result.revision == |Log(world, machine)| + 1
    requires ValidReportKeys(entry.result.unsupported) && ValidReportKeys(entry.result.setupRequired)
    ensures Logged(later)
  {
    hide ValidReportKeys, Log;
    forall other, i | 0 <= i < |Log(later, other)| ensures LogEntry(later, other, i) {
      if i < |Log(world, other)| { assert LogEntry(world, other, i); }
    }
  }

  lemma StoredExtends(world: World, later: World, machine: Id, entry: Entry)
    requires Stored(world) && later.issued == world.issued
    requires Log(later, machine) == Log(world, machine) + [entry]
    requires forall other :: other != machine ==> Log(later, other) == Log(world, other)
    requires forall other :: other in later.log ==> other == machine || other in world.log
    requires machine in world.server.rows.machines && machine in later.server.rows.machines
    requires later.server.rows.machines == world.server.rows.machines[machine := later.server.rows.machines[machine]]
    requires var row := later.server.rows.machines[machine];
      && row.revision == |Log(later, machine)| == entry.result.revision
      && entry.report in world.issued
      && row.last == Some(LastReport(entry.report, world.issued[entry.report].digest,
                                     entry.result.unsupported, entry.result.setupRequired))
    ensures Stored(later)
  {
    hide Log;
    forall other | other in later.server.rows.machines ensures StoredMatches(later, other) {
      if other != machine { assert StoredMatches(world, other); }
    }
  }

  lemma AppliedAcceptable(world: World, command: Command, path: Path, ids: seq<Id>)
    requires IssuedWell(world) && command.report in world.issued && world.issued[command.report] == command
    requires Applies(world.server.rows, command, path, ids)
    ensures var r := Reconcile(world.server.rows, command, path, ids).1;
      r.Ok? && ValidReportKeys(r.value.unsupported) && ValidReportKeys(r.value.setupRequired)
  {
    hide Applies, Reconcile, ValidReportKeys, Canonical;
    var request :| Canonical(request, world.vocabulary) == Ok(command);
    ResultIsAcceptable(world.server.rows, request, world.vocabulary, path, ids);
    FinishedResult(world.server.rows, command, path, ids);
  }

  // ----- Histories -----

  lemma NextKeepsInv(world: World, event: Event)
    requires WorldInv(world)
    ensures WorldInv(Next(world, event))
  {
    hide WorldInv, Applies, FinishReport, Canonical, Answered, PreRead, Step;
    match event
    case Start(host, machine) => StartKeeps(world, host, machine);
    case Issue(host, request) => IssueKeeps(world, host, request);
    case Deliver(ticket, report) => DeliverKeeps(world, ticket, report);
    case Finish(ticket, ids) =>
      if ticket in world.server.pending {
        var Pending(command, path) := world.server.pending[ticket];
        if Applies(world.server.rows, command, path, ids) {
          AppliedKeepsWorld(world, ticket, ids);
        } else {
          UnappliedKeeps(world, ticket, ids);
        }
      }
    case Receive(host, reply) => ReceiveKeeps(world, host, reply);
    case Other(op) => OtherKeeps(world, op);
  }

  lemma QuietInv(vocabulary: Vocabulary)
    ensures WorldInv(Quiet(vocabulary))
  {
    EmptyInv();
    hide Inv;
  }

  lemma {:induction false} HistoryKeepsInv(world: World, events: seq<Event>)
    requires WorldInv(world)
    ensures WorldInv(History(world, events))
    decreases |events|
  {
    hide WorldInv, Next;
    if events != [] {
      HistoryKeepsInv(world, events[..|events| - 1]);
      NextKeepsInv(History(world, events[..|events| - 1]), events[|events| - 1]);
    }
  }

  ghost predicate Possible(world: World) {
    exists vocabulary, events :: world == History(Quiet(vocabulary), events)
  }

  /** The possible worlds are closed under every event, and start with no Host and no report. */
  lemma EventsArePossible(world: World, event: Event, vocabulary: Vocabulary)
    ensures Possible(Quiet(vocabulary)) && (Possible(world) ==> Possible(Next(world, event)))
  {
    hide Next;
    assert Quiet(vocabulary) == History(Quiet(vocabulary), []);
    if Possible(world) {
      var v, events :| world == History(Quiet(v), events);
      assert (events + [event])[..|events|] == events;
      assert Next(world, event) == History(Quiet(v), events + [event]);
    }
  }

  lemma PossibleInv(world: World)
    requires Possible(world)
    ensures WorldInv(world)
  {
    hide WorldInv, History, Quiet;
    var vocabulary, events :| world == History(Quiet(vocabulary), events);
    QuietInv(vocabulary);
    HistoryKeepsInv(Quiet(vocabulary), events);
  }

  // ----- Guarantees -----

  /**
    Under any interleaving of loss, duplication, delay and restarts, a Machine's
    revision is the number of reports applied for it, the report applied `i`-th
    was based on revision `i`, and no report is ever applied twice.
   */
  lemma EachReportAdvancesOnce(world: World, machine: Id)
    requires Possible(world)
    ensures |Log(world, machine)| == Revision(world.server.rows, machine)
    ensures forall i :: 0 <= i < |Log(world, machine)| ==>
      && Log(world, machine)[i].report in world.issued
      && world.issued[Log(world, machine)[i].report].base == i
      && Log(world, machine)[i].result.revision == i + 1
    ensures forall i, j :: 0 <= i < j < |Log(world, machine)| ==>
      Log(world, machine)[i].report != Log(world, machine)[j].report
  {
    hide Possible, Inv, ValidReportKeys, FromRequest, Stored;
    PossibleInv(world);
    HistoryLength(world, machine);
    forall i | 0 <= i < |Log(world, machine)|
      ensures Log(world, machine)[i].report in world.issued
      ensures world.issued[Log(world, machine)[i].report].base == i
      ensures Log(world, machine)[i].result.revision == i + 1
    {
      assert LogEntry(world, machine, i);
    }
  }

  /**
    Every acceptance of a report, first or replayed, is the same answer: its base
    revision plus one, with recovery keys the Host accepts. No Host that follows
    the protocol is ever told that its report identity conflicts.
   */
  lemma AcceptancesAgree(world: World, a: Reply, b: Reply)
    requires Possible(world) && a in world.replies && b in world.replies && a.report == b.report
    requires a.result.Ok?
    ensures a.report in world.issued && a.result.value.revision == world.issued[a.report].base + 1
    ensures ValidReportKeys(a.result.value.unsupported) && ValidReportKeys(a.result.value.setupRequired)
    ensures b.result.Ok? ==> b.result == a.result
    ensures b.result != Err(ReportConflict)
  {
    hide Possible, Inv, ValidReportKeys, FromRequest;
    PossibleInv(world);
    assert ReplyTrue(world, a) && ReplyTrue(world, b);
    assert LogEntry(world, world.issued[a.report].machine, world.issued[a.report].base);
  }

  /** A process never gets ahead of the server, and each answer it acts on moves it forward. */
  lemma ReportersNeverAhead(world: World, host: Id, reply: Reply)
    requires Possible(world) && host in world.reporters
    ensures world.reporters[host].revision <= Revision(world.server.rows, world.reporters[host].machine)
    ensures reply in world.replies && world.reporters[host].outstanding == Some(reply.report) ==>
      var after := Next(world, Receive(host, reply)).reporters[host];
      && (reply.result.Ok? ==> after.revision == world.reporters[host].revision + 1)
      && (reply.result.Err? && reply.result.error.ReportStale? ==> after.revision > world.reporters[host].revision)
      && after.revision >= world.reporters[host].revision
  {
    hide Possible, WorldInv, Answered;
    PossibleInv(world);
    KnowsRevision(world, host);
    if reply in world.replies && world.reporters[host].outstanding == Some(reply.report) {
      AnswerRaises(world, host, reply);
    }
  }

  lemma KnowsRevision(world: World, host: Id)
    requires WorldInv(world) && host in world.reporters
    ensures ReporterKnows(world, world.reporters[host])
  {}
}
