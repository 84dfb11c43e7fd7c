/**
  `AgentReporter`: the Host's reporting loop. It observes a complete snapshot,
  retries the exact body while its outcome is undecided, and starts over with a
  new snapshot and identity only when the server says the base was stale.
 */
module AgentReporter {
  import opened Wrappers
  import opened Ids
  import opened ReportCommand
  import opened Authority
  import opened ReportProtocol

  datatype Body = Body(report: Id, base: nat, observations: seq<Observation>)

  /** One pass of the outer loop: what the adapters see, None for an error, and the fresh identity. */
  datatype Round = Round(observed: Option<seq<Observation>>, id: Id)

  datatype Answer = Accepted(result: ReportResult) | Stale(current: nat) | Rejected | KnownNoWrite | Unknown

  /** An answer, whether the context had ended by then, and whether the retry wait ran its full length. */
  datatype Attempt = Attempt(answer: Answer, ended: bool, waited: bool)

  datatype FailureClass = NoFailure | NoWriteFailure | UnknownFailure

  datatype Failed = ObservationFailed | ContextEnded | ReportRejected

  /** Everything one call of `Report` does: its sends, its notices, its result and the fields it leaves. */
  datatype Told = Told(
    revision: nat,
    last: Option<ReportResult>,
    sent: seq<Body>,
    notices: seq<FailureClass>,
    result: Result<ReportResult, Failed>)

  function ClassOf(answer: Answer): FailureClass {
    if answer.KnownNoWrite? then NoWriteFailure else UnknownFailure
  }

  /** The outer loop; a context that ends is a script that runs out. */
  function Reporting(revision: nat, last: Option<ReportResult>, rounds: seq<Round>, attempts: seq<Attempt>): Told
    decreases |attempts|, 1
  {
    if rounds == [] then Told(revision, last, [], [], Err(ContextEnded))
    else if rounds[0].observed.None? then Told(revision, last, [], [], Err(ObservationFailed))
    else
      Attempting(revision, last, Body(rounds[0].id, revision, rounds[0].observed.value), NoFailure, rounds[1..], attempts)
  }

  /** The inner loop, sending `body` again and again. */
  function Attempting(revision: nat, last: Option<ReportResult>, body: Body, blocked: FailureClass,
                      rounds: seq<Round>, attempts: seq<Attempt>): Told
    decreases |attempts|, 0
  {
    if attempts == [] then Told(revision, last, [], [], Err(ContextEnded))
    else
      var attempt := attempts[0];
      if attempt.answer.Accepted? then
        Told(attempt.answer.result.revision, Some(attempt.answer.result), [body], [], Ok(attempt.answer.result))
      else if attempt.ended then Told(revision, last, [body], [], Err(ContextEnded))
      else if attempt.answer.Stale? then
        Sent(body, [], Reporting(attempt.answer.current, last, rounds, attempts[1..]))
      else if attempt.answer.Rejected? then Told(revision, last, [body], [], Err(ReportRejected))
      else
        var failure := ClassOf(attempt.answer);
        var notices := if failure != blocked then [failure] else [];
        if !attempt.waited then Told(revision, last, [body], notices, Err(ContextEnded))
        else Sent(body, notices, Attempting(revision, last, body, failure, rounds, attempts[1..]))
  }

  function Sent(body: Body, notices: seq<FailureClass>, told: Told): Told {
    told.(sent := [body] + told.sent, notices := notices + told.notices)
  }

  function SameRecovery(left: ReportResult, right: ReportResult): bool {
    left.unsupported == right.unsupported && left.setupRequired == right.setupRequired
  }

  class Reporter {
    var currentRevision: nat
    var lastResult: Option<ReportResult>

    constructor ()
      ensures currentRevision == 0 && lastResult == None
    {
      currentRevision, lastResult := 0, None;
    }

    method Report(rounds: seq<Round>, attempts: seq<Attempt>)
      returns (result: Result<ReportResult, Failed>, sent: seq<Body>, notices: seq<FailureClass>)
      modifies this
      ensures Told(currentRevision, lastResult, sent, notices, result)
        == Reporting(old(currentRevision), old(lastResult), rounds, attempts)
    {
      hide Reporting, Attempting, Prepend, Sent, ClassOf;
      sent, notices := [], [];
      var round, attempt := 0, 0;
      assert rounds[0..] == rounds && attempts[0..] == attempts;
      NothingPrepended(Reporting(currentRevision, lastResult, rounds, attempts));
      while true
        invariant round <= |rounds| && attempt <= |attempts|
        invariant lastResult == old(lastResult)
        invariant Reporting(old(currentRevision), old(lastResult), rounds, attempts) ==
          Prepend(sent, notices, Reporting(currentRevision, lastResult, rounds[round..], attempts[attempt..]))
        decreases |attempts| - attempt, |rounds| - round
      {
        ReportingStep(currentRevision, lastResult, rounds[round..], attempts[attempt..]);
        if round == |rounds| {
          PrependedEnd(sent, notices, currentRevision, lastResult, Err(ContextEnded));
          return Err(ContextEnded), sent, notices;
        }
        assert rounds[round..][1..] == rounds[round + 1..];
        if rounds[round].observed.None? {
          PrependedEnd(sent, notices, currentRevision, lastResult, Err(ObservationFailed));
          return Err(ObservationFailed), sent, notices;
        }
        var body := Body(rounds[round].id, currentRevision, rounds[round].observed.value);
        round := round + 1;
        var blockedClass := NoFailure;
        while true
          invariant round <= |rounds| && attempt <= |attempts|
          invariant lastResult == old(lastResult)
          invariant body.base == currentRevision
          invariant Reporting(old(currentRevision), old(lastResult), rounds, attempts) ==
            Prepend(sent, notices,
                    Attempting(currentRevision, lastResult, body, blockedClass, rounds[round..], attempts[attempt..]))
          decreases |attempts| - attempt
        {
          AttemptingStep(currentRevision, lastResult, body, blockedClass, rounds[round..], attempts[attempt..]);
          if attempt == |attempts| {
            PrependedEnd(sent, notices, currentRevision, lastResult, Err(ContextEnded));
            return Err(ContextEnded), sent, notices;
          }
          var answered := attempts[attempt];
          assert notices + [] == notices;
          assert attempts[attempt..][1..] == attempts[attempt + 1..];
          attempt := attempt + 1;
          ghost var sentBefore, noticesBefore := sent, notices;
          sent := sent + [body];
          if answered.answer.Accepted? {
            currentRevision := answered.answer.result.revision;
            lastResult := Some(answered.answer.result);
            PrependedLast(sentBefore, notices, body, [], currentRevision, lastResult, Ok(answered.answer.result));
            return Ok(answered.answer.result), sent, notices;
          }
          if answered.ended {
            PrependedLast(sentBefore, notices, body, [], currentRevision, lastResult, Err(ContextEnded));
            return Err(ContextEnded), sent, notices;
          }
          if answered.answer.Stale? {
            currentRevision := answered.answer.current;
            PrependedMore(sentBefore, notices, body, [],
                          Reporting(currentRevision, lastResult, rounds[round..], attempts[attempt..]));
            break;
          }
          if answered.answer.Rejected? {
            PrependedLast(sentBefore, notices, body, [], currentRevision, lastResult, Err(ReportRejected));
            return Err(ReportRejected), sent, notices;
          }
          var failureClass := ClassOf(answered.answer);
          ghost var newNotices := if failureClass != blockedClass then [failureClass] else [];
          if blockedClass != failureClass {
            notices := notices + [failureClass];
            blockedClass := failureClass;
          }
          assert notices == noticesBefore + newNotices;
          if !answered.waited {
            PrependedLast(sentBefore, noticesBefore, body, newNotices, currentRevision, lastResult, Err(ContextEnded));
            return Err(ContextEnded), sent, notices;
          }
          PrependedMore(sentBefore, noticesBefore, body, newNotices,
            Attempting(currentRevision, lastResult, body, blockedClass, rounds[round..], attempts[attempt..]));
        }
      }
    }

    /** The fixed cadence: one report after another, announcing only changed recovery facts. */
    method Serve(calls: seq<(seq<Round>, seq<Attempt>)>) returns (announced: seq<ReportResult>, failed: Option<Failed>)
      modifies this
      ensures (announced, failed) == Serving(old(currentRevision), old(lastResult), calls)
    {
      hide Reporting;
      announced := [];
      assert calls[0..] == calls;
      AnnouncedEnds([], Serving(currentRevision, lastResult, calls));
      for index := 0 to |calls|
        invariant Serving(old(currentRevision), old(lastResult), calls) ==
          Announced(announced, Serving(currentRevision, lastResult, calls[index..]))
      {
        assert calls[index..][1..] == calls[index + 1..];
        ghost var rest := Serving(Reporting(currentRevision, lastResult, calls[index].0, calls[index].1).revision,
          Reporting(currentRevision, lastResult, calls[index].0, calls[index].1).last, calls[index + 1..]);
        assert forall result {:trigger [result] + rest.0} :: announced + ([result] + rest.0) == (announced + [result]) + rest.0;
        var previous := lastResult;
        var result, sent, notices := Report(calls[index].0, calls[index].1);
        if result.Err? {
          AnnouncedEnds(announced, ([], None));
          failed := if result.error.ContextEnded? then None else Some(result.error);
          return;
        }
        if previous.None? || !SameRecovery(previous.value, result.value) {
          announced := announced + [result.value];
        }
      }
      AnnouncedEnds(announced, ([], None));
      failed := None;
    }
  }

  function Prepend(sent: seq<Body>, notices: seq<FailureClass>, told: Told): Told {
    told.(sent := sent + told.sent, notices := notices + told.notices)
  }

  function Announced(announced: seq<ReportResult>, rest: (seq<ReportResult>, Option<Failed>))
    : (seq<ReportResult>, Option<Failed>)
  {
    (announced + rest.0, rest.1)
  }

  lemma AnnouncedEnds(announced: seq<ReportResult>, rest: (seq<ReportResult>, Option<Failed>))
    ensures Announced([], rest) == rest
    ensures announced + [] == announced
  {
    assert [] + rest.0 == rest.0;
  }

  lemma NothingPrepended(told: Told)
    ensures Prepend([], [], told) == told
  {}

  lemma PrependedEnd(sent: seq<Body>, notices: seq<FailureClass>, revision: nat, last: Option<ReportResult>,
                     result: Result<ReportResult, Failed>)
    ensures Prepend(sent, notices, Told(revision, last, [], [], result)) == Told(revision, last, sent, notices, result)
  {}

  lemma PrependedLast(sent: seq<Body>, notices: seq<FailureClass>, body: Body, more: seq<FailureClass>, revision: nat,
                      last: Option<ReportResult>, result: Result<ReportResult, Failed>)
    ensures Prepend(sent, notices, Told(revision, last, [body], more, result))
      == Told(revision, last, sent + [body], notices + more, result)
  {}

  lemma PrependedMore(sent: seq<Body>, notices: seq<FailureClass>, body: Body, more: seq<FailureClass>, told: Told)
    ensures Prepend(sent, notices, Sent(body, more, told)) == Prepend(sent + [body], notices + more, told)
  {
    assert sent + ([body] + told.sent) == (sent + [body]) + told.sent;
    assert notices + (more + told.notices) == (notices + more) + told.notices;
  }

  lemma ReportingStep(revision: nat, last: Option<ReportResult>, rounds: seq<Round>, attempts: seq<Attempt>)
    ensures rounds == [] ==>
      Reporting(revision, last, rounds, attempts) == Told(revision, last, [], [], Err(ContextEnded))
    ensures rounds != [] && rounds[0].observed.None? ==>
      Reporting(revision, last, rounds, attempts) == Told(revision, last, [], [], Err(ObservationFailed))
    ensures rounds != [] && rounds[0].observed.Some? ==>
      Reporting(revision, last, rounds, attempts) ==
        Attempting(revision, last, Body(rounds[0].id, revision, rounds[0].observed.value), NoFailure, rounds[1..], attempts)
  {}

  lemma AttemptingStep(revision: nat, last: Option<ReportResult>, body: Body, blocked: FailureClass, rounds: seq<Round>,
                       attempts: seq<Attempt>)
    ensures attempts == [] ==>
      Attempting(revision, last, body, blocked, rounds, attempts) == Told(revision, last, [], [], Err(ContextEnded))
    ensures attempts != [] ==>
      var attempt := attempts[0];
      var failure := ClassOf(attempt.answer);
      var notices := if failure != blocked then [failure] else [];
      Attempting(revision, last, body, blocked, rounds, attempts) ==
        if attempt.answer.Accepted?
        then Told(attempt.answer.result.revision, Some(attempt.answer.result), [body], [], Ok(attempt.answer.result))
        else if attempt.ended then Told(revision, last, [body], [], Err(ContextEnded))
        else if attempt.answer.Stale? then Sent(body, [], Reporting(attempt.answer.current, last, rounds, attempts[1..]))
        else if attempt.answer.Rejected? then Told(revision, last, [body], [], Err(ReportRejected))
        else if !attempt.waited then Told(revision, last, [body], notices, Err(ContextEnded))
        else Sent(body, notices, Attempting(revision, last, body, failure, rounds, attempts[1..]))
  {
    hide Reporting, Sent;
  }

  function Serving(revision: nat, last: Option<ReportResult>, calls: seq<(seq<Round>, seq<Attempt>)>)
    : (seq<ReportResult>, Option<Failed>)
    decreases |calls|
  {
    if calls == [] then ([], None)
    else
      var told := Reporting(revision, last, calls[0].0, calls[0].1);
      match told.result
      case Err(error) => ([], if error.ContextEnded? then None else Some(error))
      case Ok(result) =>
        var rest := Serving(told.revision, told.last, calls[1..]);
        (if last.None? || !SameRecovery(last.value, result) then [result] + rest.0 else rest.0, rest.1)
  }

  // ----- Guarantees -----

  function ResultOf(answer: Answer): Result<ReportResult, ReportFailure> {
    match answer
    case Accepted(result) => Ok(result)
    case Stale(current) => Err(ReportStale(current))
    case Rejected => Err(ReportMachineRevoked)
    case KnownNoWrite => Err(ReportTemporarilyUnavailable)
    case Unknown => Err(ReportOutcomeUnknown)
  }

  /**
    From one send to the next the loop does what the protocol lets a process do:
    it waits for the same report with the same body, or it has given that report
    up and sends a new one based on the revision it learned.
   */
  ghost predicate FollowsProtocol(machine: Id, sent: seq<Body>, attempts: seq<Attempt>)
    requires |sent| <= |attempts|
  {
    forall i {:trigger sent[i]} :: 0 <= i < |sent| - 1 ==>
      var before := ReportProtocol.Reporter(machine, sent[i].base, Some(sent[i].report));
      var after := Answered(before, ResultOf(attempts[i].answer));
      && after.revision == sent[i + 1].base
      && (after.outstanding.Some? ==> sent[i + 1] == sent[i])
      && (after.outstanding.None? ==> attempts[i].answer.Stale?)
  }

  lemma {:induction false} ReportingFollows(machine: Id, revision: nat, last: Option<ReportResult>, rounds: seq<Round>,
                                            attempts: seq<Attempt>)
    ensures var told := Reporting(revision, last, rounds, attempts);
      && |told.sent| <= |attempts| && FollowsProtocol(machine, told.sent, attempts)
      && (told.sent != [] ==> told.sent[0].base == revision)
      && (told.result.Ok? ==>
            && told.sent != [] && attempts[|told.sent| - 1].answer == Answer.Accepted(told.result.value)
            && told.revision == told.result.value.revision && told.last == Some(told.result.value))
      && (told.result.Err? ==> told.last == last)
    decreases |attempts|, 1
  {
    if rounds != [] && rounds[0].observed.Some? {
      AttemptingFollows(machine, revision, last, Body(rounds[0].id, revision, rounds[0].observed.value), NoFailure,
                        rounds[1..], attempts);
    }
  }

  lemma {:induction false} AttemptingFollows(machine: Id, revision: nat, last: Option<ReportResult>, body: Body,
                                             blocked: FailureClass, rounds: seq<Round>, attempts: seq<Attempt>)
    requires body.base == revision
    ensures var told := Attempting(revision, last, body, blocked, rounds, attempts);
      && |told.sent| <= |attempts| && FollowsProtocol(machine, told.sent, attempts)
      && (told.sent != [] ==> told.sent[0] == body)
      && (told.result.Ok? ==>
            && told.sent != [] && attempts[|told.sent| - 1].answer == Answer.Accepted(told.result.value)
            && told.revision == told.result.value.revision && told.last == Some(told.result.value))
      && (told.result.Err? ==> told.last == last)
    decreases |attempts|, 0
  {
    if attempts != [] && !attempts[0].answer.Accepted? && !attempts[0].ended && !attempts[0].answer.Rejected? {
      if attempts[0].answer.Stale? {
        ReportingFollows(machine, attempts[0].answer.current, last, rounds, attempts[1..]);
        FollowsOneMore(machine, body, Reporting(attempts[0].answer.current, last, rounds, attempts[1..]).sent, attempts);
      } else if attempts[0].waited {
        var failure := ClassOf(attempts[0].answer);
        AttemptingFollows(machine, revision, last, body, failure, rounds, attempts[1..]);
        FollowsOneMore(machine, body, Attempting(revision, last, body, failure, rounds, attempts[1..]).sent, attempts);
      }
    }
  }

  lemma FollowsOneMore(machine: Id, body: Body, sent: seq<Body>, attempts: seq<Attempt>)
    requires attempts != [] && |sent| <= |attempts| - 1 && FollowsProtocol(machine, sent, attempts[1..])
    requires sent != [] ==>
      if attempts[0].answer.Stale? then sent[0].base == attempts[0].answer.current
      else (attempts[0].answer.KnownNoWrite? || attempts[0].answer.Unknown?) && sent[0] == body
    ensures FollowsProtocol(machine, [body] + sent, attempts)
  {
    var all := [body] + sent;
    forall i | 0 <= i < |all| - 1
      ensures var before := ReportProtocol.Reporter(machine, all[i].base, Some(all[i].report));
        var after := Answered(before, ResultOf(attempts[i].answer));
        && after.revision == all[i + 1].base
        && (after.outstanding.Some? ==> all[i + 1] == all[i])
        && (after.outstanding.None? ==> attempts[i].answer.Stale?)
    {
      if i > 0 {
        assert all[i] == sent[i - 1] && attempts[1..][i - 1] == attempts[i];
      }
    }
  }

  ghost predicate FreshRounds(rounds: seq<Round>) {
    forall i, j :: 0 <= i < j < |rounds| ==> rounds[i].id != rounds[j].id
  }

  /** The send is of this round: its identity with the snapshot it observed. */
  ghost predicate OfRound(body: Body, round: Round) {
    round.id == body.report && round.observed == Some(body.observations)
  }

  /** Every send is of some round. */
  ghost predicate FromRounds(sent: seq<Body>, rounds: seq<Round>) {
    forall i :: 0 <= i < |sent| ==> exists r :: 0 <= r < |rounds| && OfRound(sent[i], rounds[r])
  }

  ghost predicate OneBodyPerReport(sent: seq<Body>) {
    forall i, j :: 0 <= i < |sent| && 0 <= j < |sent| && sent[i].report == sent[j].report ==> sent[i] == sent[j]
  }

  /**
    Every send carries a snapshot under the identity drawn for it, and an identity
    never travels with two different bodies, whatever is answered: the exact-body
    retry the server's replay arbitration relies on.
   */
  lemma {:induction false} ExactBodyRetry(revision: nat, last: Option<ReportResult>, rounds: seq<Round>,
                                          attempts: seq<Attempt>)
    requires FreshRounds(rounds)
    ensures var sent := Reporting(revision, last, rounds, attempts).sent;
      OneBodyPerReport(sent) && FromRounds(sent, rounds)
    decreases |attempts|, 1
  {
    if rounds != [] && rounds[0].observed.Some? {
      var body := Body(rounds[0].id, revision, rounds[0].observed.value);
      var sent := Reporting(revision, last, rounds, attempts).sent;
      ExactBodyAttempts(revision, last, body, NoFailure, rounds[1..], attempts);
      forall i | 0 <= i < |sent| ensures exists r :: 0 <= r < |rounds| && OfRound(sent[i], rounds[r]) {
        if sent[i] == body {
          assert OfRound(sent[i], rounds[0]);
        } else {
          var r :| 0 <= r < |rounds[1..]| && OfRound(sent[i], rounds[1..][r]);
          assert OfRound(sent[i], rounds[r + 1]);
        }
      }
    }
  }

  lemma {:induction false} ExactBodyAttempts(revision: nat, last: Option<ReportResult>, body: Body, blocked: FailureClass,
                                             rounds: seq<Round>, attempts: seq<Attempt>)
    requires FreshRounds(rounds) && forall r :: 0 <= r < |rounds| ==> rounds[r].id != body.report
    ensures var sent := Attempting(revision, last, body, blocked, rounds, attempts).sent;
      && OneBodyPerReport(sent)
      && forall i :: 0 <= i < |sent| ==>
           sent[i] == body || exists r :: 0 <= r < |rounds| && OfRound(sent[i], rounds[r])
    decreases |attempts|, 0
  {
    if attempts != [] && !attempts[0].answer.Accepted? && !attempts[0].ended && !attempts[0].answer.Rejected? {
      if attempts[0].answer.Stale? {
        ExactBodyRetry(attempts[0].answer.current, last, rounds, attempts[1..]);
        OneMoreBody(body, Reporting(attempts[0].answer.current, last, rounds, attempts[1..]).sent);
      } else if attempts[0].waited {
        var failure := ClassOf(attempts[0].answer);
        ExactBodyAttempts(revision, last, body, failure, rounds, attempts[1..]);
        OneMoreBody(body, Attempting(revision, last, body, failure, rounds, attempts[1..]).sent);
      }
    }
  }

  lemma OneMoreBody(body: Body, sent: seq<Body>)
    requires OneBodyPerReport(sent)
    requires forall i :: 0 <= i < |sent| ==> sent[i] == body || sent[i].report != body.report
    ensures OneBodyPerReport([body] + sent)
  {
    var all := [body] + sent;
    forall i, j | 0 <= i < |all| && 0 <= j < |all| && all[i].report == all[j].report ensures all[i] == all[j] {
      if i > 0 { assert all[i] == sent[i - 1]; }
      if j > 0 { assert all[j] == sent[j - 1]; }
    }
  }

  // ----- Notices and ends -----

  predicate Undecided(answer: Answer) {
    answer == KnownNoWrite || answer == Unknown
  }

  /** A notice is due at an undecided answer that is the body's first or of another class than the one before. */
  predicate Notable(previous: Option<Answer>, attempt: Attempt) {
    && Undecided(attempt.answer) && !attempt.ended
    && (previous.Some? && Undecided(previous.value) ==> previous.value != attempt.answer)
  }

  /** The notices of these attempts, one after another. */
  function Notices(previous: Option<Answer>, attempts: seq<Attempt>): seq<FailureClass>
    decreases |attempts|
  {
    if attempts == [] then []
    else
      (if !Notable(previous, attempts[0]) then []
       else if attempts[0].answer == KnownNoWrite then [NoWriteFailure] else [UnknownFailure])
        + Notices(Some(attempts[0].answer), attempts[1..])
  }

  lemma NothingNoticed(previous: Option<Answer>)
    ensures Notices(previous, []) == []
  {}

  lemma NoticesOfFirst(previous: Option<Answer>, attempts: seq<Attempt>)
    requires attempts != []
    ensures Notices(previous, []) == []
    ensures Notices(previous, attempts[..1]) ==
      if !Notable(previous, attempts[0]) then []
      else if attempts[0].answer == KnownNoWrite then [NoWriteFailure] else [UnknownFailure]
  {
    assert attempts[..1][1..] == [];
  }

  lemma NoticesCons(previous: Option<Answer>, attempts: seq<Attempt>, n: nat)
    requires 0 < n <= |attempts|
    ensures Notices(previous, attempts[..n]) ==
      Notices(previous, attempts[..1]) + Notices(Some(attempts[0].answer), attempts[1..][..n - 1])
  {
    assert attempts[..n][1..] == attempts[1..][..n - 1];
    assert attempts[..1][1..] == [];
    assert Notices(Some(attempts[0].answer), []) == [];
  }

  /**
    The operator is told of an undecided outcome exactly when it is the first for
    its body or changes class, and is told which class it is.
   */
  lemma {:induction false} NoticesIff(revision: nat, last: Option<ReportResult>, rounds: seq<Round>, attempts: seq<Attempt>,
                                      previous: Option<Answer>)
    requires previous.Some? ==> !Undecided(previous.value)
    ensures var told := Reporting(revision, last, rounds, attempts);
      |told.sent| <= |attempts| && told.notices == Notices(previous, attempts[..|told.sent|])
    decreases |attempts|, 1
  {
    if rounds != [] && rounds[0].observed.Some? {
      NoticesOfBody(revision, last, Body(rounds[0].id, revision, rounds[0].observed.value), NoFailure, rounds[1..], attempts,
                    previous);
    }
  }

  lemma {:induction false} NoticesOfBody(revision: nat, last: Option<ReportResult>, body: Body, blocked: FailureClass,
                                         rounds: seq<Round>, attempts: seq<Attempt>, previous: Option<Answer>)
    requires blocked == NoFailure <==> (previous.Some? ==> !Undecided(previous.value))
    requires blocked == NoWriteFailure <==> previous == Some(KnownNoWrite)
    ensures var told := Attempting(revision, last, body, blocked, rounds, attempts);
      |told.sent| <= |attempts| && told.notices == Notices(previous, attempts[..|told.sent|])
    decreases |attempts|, 0
  {
    hide Reporting, Attempting, Notices;
    AttemptingStep(revision, last, body, blocked, rounds, attempts);
    if attempts == [] {
      NothingNoticed(previous);
    } else {
      NoticesOfFirst(previous, attempts);
      var told, answer := Attempting(revision, last, body, blocked, rounds, attempts), attempts[0].answer;
      if answer.Stale? && !attempts[0].ended {
        NoticesIff(answer.current, last, rounds, attempts[1..], Some(answer));
        NoticesCons(previous, attempts, |told.sent|);
      } else if Undecided(answer) && !attempts[0].ended && attempts[0].waited {
        NoticesOfBody(revision, last, body, ClassOf(answer), rounds, attempts[1..], Some(answer));
        NoticesCons(previous, attempts, |told.sent|);
      }
    }
  }

  /**
    A call ends as its last answer says: accepted with that result, rejected, or
    with the context; and only the context ends it while the outcome is undecided.
   */
  lemma {:induction false} ReportEnds(revision: nat, last: Option<ReportResult>, rounds: seq<Round>, attempts: seq<Attempt>)
    ensures var told := Reporting(revision, last, rounds, attempts);
      && |told.sent| <= |attempts|
      && EndsRight(told, attempts)
      && (told.sent == [] ==> told.result == Err(ContextEnded) || told.result == Err(ObservationFailed))
      && (told.result == Err(ObservationFailed) ==> exists r :: 0 <= r < |rounds| && rounds[r].observed.None?)
      && (rounds != [] && rounds[0].observed.None? ==> told.result == Err(ObservationFailed))
    decreases |attempts|, 1
  {
    if rounds != [] && rounds[0].observed.Some? {
      BodyEnds(revision, last, Body(rounds[0].id, revision, rounds[0].observed.value), NoFailure, rounds[1..], attempts);
      if r :| 0 <= r < |rounds[1..]| && rounds[1..][r].observed.None? { assert rounds[r + 1].observed.None?; }
    }
  }

  /** What the last answer of a call makes of it. */
  ghost predicate EndsRight(told: Told, attempts: seq<Attempt>)
    requires |told.sent| <= |attempts|
  {
    told.sent != [] ==>
      var ended := attempts[|told.sent| - 1];
      && (told.result.Ok? <==> ended.answer.Accepted?)
      && (told.result.Ok? ==> ended.answer == Answer.Accepted(told.result.value))
      && (told.result == Err(ReportRejected) <==> ended.answer.Rejected? && !ended.ended)
      && (Undecided(ended.answer) ==>
            told.result == Err(ContextEnded) && (ended.ended || !ended.waited || |told.sent| == |attempts|))
  }

  lemma {:induction false} BodyEnds(revision: nat, last: Option<ReportResult>, body: Body, blocked: FailureClass,
                                    rounds: seq<Round>, attempts: seq<Attempt>)
    ensures var told := Attempting(revision, last, body, blocked, rounds, attempts);
      && |told.sent| <= |attempts|
      && EndsRight(told, attempts)
      && (told.sent == [] ==> told.result == Err(ContextEnded) && attempts == [])
      && (told.result == Err(ObservationFailed) ==> exists r :: 0 <= r < |rounds| && rounds[r].observed.None?)
    decreases |attempts|, 0
  {
    if attempts != [] && !attempts[0].ended {
      if attempts[0].answer.Stale? {
        ReportEnds(attempts[0].answer.current, last, rounds, attempts[1..]);
      } else if Undecided(attempts[0].answer) && attempts[0].waited {
        BodyEnds(revision, last, body, ClassOf(attempts[0].answer), rounds, attempts[1..]);
      }
    }
  }

  // ----- Announcements -----

  /** The results the calls obtained one after another, up to the first call that failed. */
  function Results(revision: nat, last: Option<ReportResult>, calls: seq<(seq<Round>, seq<Attempt>)>): seq<ReportResult>
    decreases |calls|
  {
    if calls == [] then []
    else
      var told := Reporting(revision, last, calls[0].0, calls[0].1);
      if told.result.Err? then [] else [told.result.value] + Results(told.revision, told.last, calls[1..])
  }

  /** How the first call that failed ended. */
  function FirstFailure(revision: nat, last: Option<ReportResult>, calls: seq<(seq<Round>, seq<Attempt>)>): Option<Failed>
    decreases |calls|
  {
    if calls == [] then None
    else
      var told := Reporting(revision, last, calls[0].0, calls[0].1);
      if told.result.Err? then Some(told.result.error) else FirstFailure(told.revision, told.last, calls[1..])
  }

  /** `results` without those that repeat the recovery facts of the one before, `last` coming first. */
  function Changes(last: Option<ReportResult>, results: seq<ReportResult>): seq<ReportResult>
    decreases |results|
  {
    if results == [] then []
    else
      var same := last.Some? && last.value.unsupported == results[0].unsupported
                  && last.value.setupRequired == results[0].setupRequired;
      (if same then [] else [results[0]]) + Changes(Some(results[0]), results[1..])
  }

  /**
    The operator is told of every change of recovery facts, and only of changes,
    until a call fails; that failure is returned unless the context had ended.
   */
  lemma {:induction false} AnnouncesChanges(revision: nat, last: Option<ReportResult>,
                                            calls: seq<(seq<Round>, seq<Attempt>)>)
    ensures Serving(revision, last, calls).0 == Changes(last, Results(revision, last, calls))
    ensures Serving(revision, last, calls).1 ==
      if FirstFailure(revision, last, calls) == Some(ContextEnded) then None else FirstFailure(revision, last, calls)
    ensures var announced := Serving(revision, last, calls).0;
      && (announced != [] && last.Some? ==> !SameRecovery(last.value, announced[0]))
      && forall i :: 1 <= i < |announced| ==> !SameRecovery(announced[i - 1], announced[i])
    decreases |calls|
  {
    hide Reporting;
    if calls != [] {
      var told := Reporting(revision, last, calls[0].0, calls[0].1);
      if told.result.Ok? {
        AnnouncesChanges(told.revision, told.last, calls[1..]);
        ReportingFollows(Id(seq(36, i => 48)), revision, last, calls[0].0, calls[0].1);
        var results := Results(revision, last, calls);
        assert results[0] == told.result.value && results[1..] == Results(told.revision, told.last, calls[1..]);
      }
    }
  }
}
