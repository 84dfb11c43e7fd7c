/** Preservation of the Work and Run invariant, transaction by transaction. */
module WorkRunRuns {
  import opened Wrappers
  import opened Ids
  import opened Text
  import opened WorkRun
  import opened WorkRunInvariant

  // ----- Input ranges -----

  /** Later messages do not disturb earlier ranges. */
  ghost predicate MessagesGrow(messages: Messages, positions: Positions, later: Messages, laterPositions: Positions) {
    && (forall id {:trigger id in messages} :: id in messages ==> id in later && later[id] == messages[id])
    && (forall slot {:trigger slot in positions} :: slot in positions ==>
          slot in laterPositions && laterPositions[slot] == positions[slot])
  }

  lemma {:induction false} InputsStable(works: map<Id, Work>, messages: Messages, positions: Positions, later: Messages,
                                        laterPositions: Positions, work: Id, first: nat, last: nat)
    requires InputsDense(works, messages, positions) && MessagesGrow(messages, positions, later, laterPositions)
    requires work in works && 1 <= first && last <= works[work].head
    requires InputSlot(work, 1) !in laterPositions
    ensures Inputs(later, laterPositions, work, first, last) == Inputs(messages, positions, work, first, last)
    decreases last
  {
    hide InputsDense, MessagesGrow, InputAt;
    if last >= first {
      InputsStable(works, messages, positions, later, laterPositions, work, first, last - 1);
      InputStable(works, messages, positions, later, laterPositions, work, last);
    }
  }

  lemma InputStable(works: map<Id, Work>, messages: Messages, positions: Positions, later: Messages,
                    laterPositions: Positions, work: Id, input: nat)
    requires InputsDense(works, messages, positions) && MessagesGrow(messages, positions, later, laterPositions)
    requires work in works && 1 <= input <= works[work].head && InputSlot(work, 1) !in laterPositions
    ensures InputAt(later, laterPositions, work, input) == InputAt(messages, positions, work, input)
  {
    var slot := InputSlot(work, input);
    assert slot in positions <==> slot.work in works && 2 <= slot.input <= works[slot.work].head;
  }

  lemma NoGoalMessage(works: map<Id, Work>, messages: Messages, positions: Positions, work: Id)
    requires InputsDense(works, messages, positions)
    ensures InputSlot(work, 1) !in positions
  {
    var slot := InputSlot(work, 1);
    assert slot in positions ==> 2 <= slot.input;
  }

  lemma {:induction false} TextBytesOfOne(input: Input)
    ensures TextBytes([input]) == |input.text|
  {
    assert [input][..0] == [];
  }

  /** Over messages without a gap the scan stops only at the head or just before a limit. */
  lemma {:induction false} ScanWithin(messages: Messages, positions: Positions, work: Id, first: nat, end: nat, head: nat)
    requires 1 <= first <= end <= head && Bounded(Inputs(messages, positions, work, first, end))
    requires forall i :: end < i <= head ==> InputAt(messages, positions, work, i) != []
    ensures var last := ScanInputs(messages, positions, work, first, end + 1, head, end);
      && end <= last <= head && Bounded(Inputs(messages, positions, work, first, last))
      && (last < head ==> !Bounded(Inputs(messages, positions, work, first, last + 1)))
    decreases head - end
  {
    hide Bounded, InputAt;
    if end < head && Bounded(Inputs(messages, positions, work, first, end + 1)) {
      ScanWithin(messages, positions, work, first, end + 1, head);
    }
  }

  lemma {:induction false} BoundedShrinks(messages: Messages, positions: Positions, work: Id, first: nat, end: nat, last: nat)
    requires 1 <= first && end <= last && Bounded(Inputs(messages, positions, work, first, last))
    ensures Bounded(Inputs(messages, positions, work, first, end))
    decreases last
  {
    if end < last && first <= last {
      var shorter, one := Inputs(messages, positions, work, first, last - 1), InputAt(messages, positions, work, last);
      assert one != [] ==> (shorter + one)[..|shorter|] == shorter;
      assert one == [] ==> shorter + one == shorter;
      BoundedShrinks(messages, positions, work, first, end, last - 1);
    }
  }

  lemma FirstInputFits(works: map<Id, Work>, messages: Messages, positions: Positions, work: Id, first: nat)
    requires InputsDense(works, messages, positions) && work in works && 1 <= first <= works[work].head
    ensures Bounded(Inputs(messages, positions, work, first, first))
    ensures InputAt(messages, positions, work, first) == [] <==> first == 1
  {
    var slot := InputSlot(work, first);
    assert slot in positions <==> slot.work in works && 2 <= slot.input <= works[slot.work].head;
    assert Inputs(messages, positions, work, first, first - 1) == [];
    if first > 1 {
      TextBytesOfOne(InputAt(messages, positions, work, first)[0]);
      assert Inputs(messages, positions, work, first, first) == InputAt(messages, positions, work, first);
    }
  }

  lemma LaterInputs(works: map<Id, Work>, messages: Messages, positions: Positions, work: Id, input: nat)
    requires InputsDense(works, messages, positions) && work in works && 2 <= input <= works[work].head
    ensures InputAt(messages, positions, work, input) != []
  {
    var slot := InputSlot(work, input);
    assert slot in positions <==> slot.work in works && 2 <= slot.input <= works[slot.work].head;
  }

  /**
    A fresh range is not empty and is the longest one up to the head within both
    limits: exactly the ends up to it are within them.
   */
  lemma SelectedRange(works: map<Id, Work>, messages: Messages, positions: Positions, work: Id, first: nat)
    requires InputsDense(works, messages, positions) && work in works && 1 <= first <= works[work].head
    ensures var last := SelectInputEnd(messages, positions, work, first, works[work].head);
      && first <= last <= works[work].head
      && forall end {:trigger Inputs(messages, positions, work, first, end)} :: first <= end <= works[work].head ==>
           (Bounded(Inputs(messages, positions, work, first, end)) <==> end <= last)
  {
    hide InputsDense, Bounded, InputAt;
    var head := works[work].head;
    FirstInputFits(works, messages, positions, work, first);
    forall i | first < i <= head ensures InputAt(messages, positions, work, i) != [] {
      LaterInputs(works, messages, positions, work, i);
    }
    ScanWithin(messages, positions, work, first, first, head);
    var last := SelectInputEnd(messages, positions, work, first, head);
    forall end {:trigger Inputs(messages, positions, work, first, end)} | first <= end <= head
      ensures Bounded(Inputs(messages, positions, work, first, end)) <==> end <= last
    {
      if end <= last {
        BoundedShrinks(messages, positions, work, first, end, last);
      } else if Bounded(Inputs(messages, positions, work, first, end)) {
        BoundedShrinks(messages, positions, work, first, last + 1, end);
      }
    }
  }

  // ----- Works -----

  /** Works were added or given more input; what their Runs depend on is as it was. */
  ghost predicate WorksKept(works: map<Id, Work>, later: map<Id, Work>) {
    && (forall w {:trigger w in works} :: w in works ==>
          && w in later && works[w].head <= later[w].head
          && later[w].applied == works[w].applied && later[w].version == works[w].version
          && later[w].current == works[w].current)
    && (forall w {:trigger w in later} :: w in later && w !in works ==>
          later[w].applied == 0 && later[w].version == 0 && later[w].current.None?)
  }

  lemma RunsCarry(works: map<Id, Work>, later: map<Id, Work>, messages: Messages, positions: Positions, runs: map<Id, Run>)
    requires RunsSound(works, messages, positions, runs) && WorksKept(works, later)
    ensures RunsSound(later, messages, positions, runs)
  {
    hide Inputs, Bounded;
    forall r | r in runs ensures RunSound(later, messages, positions, runs[r]) {
      assert RunSound(works, messages, positions, runs[r]);
    }
  }

  lemma UnresolvedCarries(works: map<Id, Work>, later: map<Id, Work>, runs: map<Id, Run>, unresolved: map<Id, Id>)
    requires UnresolvedSound(works, runs, unresolved) && WorksKept(works, later)
    ensures UnresolvedSound(later, runs, unresolved)
  {}

  lemma ChecksCarry(works: map<Id, Work>, later: map<Id, Work>, checks: map<Id, Check>, byVersion: map<VersionKey, Id>)
    requires ChecksSound(works, checks, byVersion) && WorksKept(works, later)
    ensures ChecksSound(later, checks, byVersion)
  {
    hide ReviewDigest;
    forall c | c in checks ensures CheckSound(later, byVersion, c, checks[c]) {
      assert CheckSound(works, byVersion, c, checks[c]);
    }
  }

  lemma LedgerCarries(ledger: Ledger, later: State)
    requires LedgerSound(ledger) && WorksKept(ledger.rows.works, later.works) && later.runs == ledger.rows.runs
    ensures LedgerSound(ledger.(rows := later))
  {
    var next := ledger.(rows := later);
    forall w ensures CommitsSound(later.works, later.runs, w, CommitsOf(next, w)) {
      assert CommitsSound(ledger.rows.works, ledger.rows.runs, w, CommitsOf(ledger, w));
      CommitsCarry(ledger.rows.works, later.works, ledger.rows.runs, w, CommitsOf(ledger, w));
    }
  }

  lemma CommitsCarry(works: map<Id, Work>, later: map<Id, Work>, runs: map<Id, Run>, work: Id, commits: seq<Id>)
    requires CommitsSound(works, runs, work, commits) && WorksKept(works, later)
    ensures CommitsSound(later, runs, work, commits)
  {
    forall i | 0 <= i < |commits| ensures CommitAt(later, runs, work, commits, i) {
      assert CommitAt(works, runs, work, commits, i);
    }
  }

  /** A transaction that leaves Runs, Attempts, reviews and retries alone. */
  lemma WorksOnly(ledger: Ledger, later: State)
    requires Inv(ledger) && WorksKept(ledger.rows.works, later.works)
    requires later == ledger.rows.(works := later.works, byCreation := later.byCreation,
                                   members := later.members, machines := later.machines)
    requires InputsDense(later.works, later.messages, later.byInput) && WorksSound(later.works)
    ensures Inv(ledger.(rows := later))
  {
    hide InputsDense, WorksSound, RunsSound, UnresolvedSound, AttemptsSound, ChecksSound, AcceptancesSound, RetriesSound,
      LedgerSound, WorksKept;
    var s := ledger.rows;
    RunsCarry(s.works, later.works, s.messages, s.byInput, s.runs);
    UnresolvedCarries(s.works, later.works, s.runs, s.unresolved);
    ChecksCarry(s.works, later.works, s.checks, s.byVersion);
    LedgerCarries(ledger, later);
  }

  lemma CreateKeeps(ledger: Ledger, command: CreateCommand, newWork: Id)
    requires Inv(ledger)
    ensures Inv(ledger.(rows := CreateWork(ledger.rows, command, newWork).0))
  {
    hide Inv, Normalize, CreateDigest, ValidateUpdate, Admitted, ValidMessageText;
    var s, t := ledger.rows, CreateWork(ledger.rows, command, newWork).0;
    if t != s {
      var goal := Normalize(command.goal, MAX_GOAL).value;
      NormalizeIdempotent(command.goal, MAX_GOAL);
      CreatedWorks(ledger, t.works[newWork], newWork);
      WorksOnly(ledger, t);
    }
  }

  lemma CreatedWorks(ledger: Ledger, row: Work, newWork: Id)
    requires Inv(ledger) && newWork !in ledger.rows.works
    requires WorkSound(row) && row.head == 1 && row.applied == 0 && row.version == 0
    ensures var works := ledger.rows.works[newWork := row];
      WorksKept(ledger.rows.works, works) && WorksSound(works)
      && InputsDense(works, ledger.rows.messages, ledger.rows.byInput)
  {
    hide WorkSound, RunsSound, UnresolvedSound, AttemptsSound, ChecksSound, AcceptancesSound, RetriesSound, LedgerSound,
      ValidMessageText;
    CreatedKeep(ledger.rows.works, row, newWork);
    CreatedInputs(ledger.rows.works, row, newWork, ledger.rows.messages, ledger.rows.byInput);
  }

  lemma CreatedKeep(works: map<Id, Work>, row: Work, newWork: Id)
    requires WorksSound(works) && newWork !in works && WorkSound(row)
    requires row.head == 1 && row.applied == 0 && row.version == 0
    ensures WorksKept(works, works[newWork := row]) && WorksSound(works[newWork := row])
  {
    hide ValidateUpdate, Normalize, Admitted;
  }

  lemma CreatedInputs(works: map<Id, Work>, row: Work, newWork: Id, messages: Messages, positions: Positions)
    requires InputsDense(works, messages, positions) && newWork !in works && row.head == 1
    ensures InputsDense(works[newWork := row], messages, positions)
  {
    hide ValidMessageText;
    var later := works[newWork := row];
    forall slot: InputSlot ensures slot in positions <==> slot.work in later && 2 <= slot.input <= later[slot.work].head {
      assert slot in positions <==> slot.work in works && 2 <= slot.input <= works[slot.work].head;
    }
  }

  lemma TransferKeeps(ledger: Ledger, work: Id, owner: Id)
    requires Inv(ledger) && work in ledger.rows.works
    ensures Inv(ledger.(rows := ledger.rows.(works := ledger.rows.works[work := ledger.rows.works[work].(owner := owner)])))
  {
    hide Inv;
    var s := ledger.rows;
    var later := s.works[work := s.works[work].(owner := owner)];
    InvParts(ledger);
    OwnerOnly(s.works, work, owner, s.messages, s.byInput);
    WorksOnly(ledger, s.(works := later));
  }

  lemma InvParts(ledger: Ledger)
    requires Inv(ledger)
    ensures RowInv(ledger.rows) && LedgerSound(ledger)
    ensures InputsDense(ledger.rows.works, ledger.rows.messages, ledger.rows.byInput) && WorksSound(ledger.rows.works)
  {}

  lemma OwnerOnly(works: map<Id, Work>, work: Id, owner: Id, messages: Messages, positions: Positions)
    requires InputsDense(works, messages, positions) && WorksSound(works) && work in works
    ensures var later := works[work := works[work].(owner := owner)];
      WorksKept(works, later) && WorksSound(later) && InputsDense(later, messages, positions)
  {
    hide ValidateUpdate, Normalize, Admitted, ValidMessageText;
    var later := works[work := works[work].(owner := owner)];
    forall slot: InputSlot ensures slot in positions <==> slot.work in later && 2 <= slot.input <= later[slot.work].head {
      assert slot in positions <==> slot.work in works && 2 <= slot.input <= works[slot.work].head;
    }
  }

  lemma EnvironmentKeeps(ledger: Ledger, members: map<Member, bool>, machines: map<Id, Machine>)
    requires Inv(ledger)
    ensures Inv(ledger.(rows := ledger.rows.(members := members, machines := machines)))
  {
    hide Inv;
    InvParts(ledger);
    SameWorks(ledger.rows.works);
    WorksOnly(ledger, ledger.rows.(members := members, machines := machines));
  }

  lemma SameWorks(works: map<Id, Work>)
    ensures WorksKept(works, works)
  {}

  // ----- Messages -----

  lemma AppendKeeps(ledger: Ledger, command: AppendCommand, newMessage: Id)
    requires Inv(ledger)
    ensures Inv(ledger.(rows := Append(ledger.rows, command, newMessage).0))
  {
    hide Normalize, MessageDigest, ValidMessageText, InputsDense, WorksSound, RunsSound, UnresolvedSound, AttemptsSound,
      ChecksSound, AcceptancesSound, RetriesSound, LedgerSound;
    var s, t := ledger.rows, Append(ledger.rows, command, newMessage).0;
    if t != s {
      var w := command.work;
      var message := t.messages[newMessage];
      WorkOf(s, w);
      AppendedInputs(s.works, s.messages, s.byInput, w, newMessage, message);
      AppendedWorks(s.works, w);
      AppendedRuns(s.works, s.messages, s.byInput, w, newMessage, message, s.runs);
      UnresolvedCarries(s.works, t.works, s.runs, s.unresolved);
      ChecksCarry(s.works, t.works, s.checks, s.byVersion);
      LedgerCarries(ledger, t);
    }
  }

  lemma WorkOf(s: State, work: Id)
    requires WorksSound(s.works) && work in s.works
    ensures 1 <= s.works[work].head && s.works[work].applied <= s.works[work].head
  {}

  lemma AppendedWorks(works: map<Id, Work>, work: Id)
    requires WorksSound(works) && work in works
    ensures var later := works[work := works[work].(head := works[work].head + 1)];
      WorksSound(later) && WorksKept(works, later)
  {
    hide ValidateUpdate, Normalize, Admitted;
  }

  lemma AppendedInputs(works: map<Id, Work>, messages: Messages, positions: Positions, work: Id, id: Id, message: Message)
    requires InputsDense(works, messages, positions) && work in works && id !in messages
    requires 1 <= works[work].head
    requires message.work == work && message.input == works[work].head + 1 && ValidMessageText(message.text)
    ensures InputsDense(works[work := works[work].(head := works[work].head + 1)], messages[id := message],
                        positions[InputSlot(work, message.input) := id])
    ensures MessagesGrow(messages, positions, messages[id := message], positions[InputSlot(work, message.input) := id])
  {
    hide ValidMessageText;
    var later := works[work := works[work].(head := works[work].head + 1)];
    var added := InputSlot(work, message.input);
    var laterPositions := positions[added := id];
    assert added !in positions by {
      assert added in positions <==> added.work in works && 2 <= added.input <= works[added.work].head;
    }
    forall slot: InputSlot
      ensures slot in laterPositions <==> slot.work in later && 2 <= slot.input <= later[slot.work].head
    {
      assert slot in positions <==> slot.work in works && 2 <= slot.input <= works[slot.work].head;
    }
  }

  lemma AppendedRuns(works: map<Id, Work>, messages: Messages, positions: Positions, work: Id, id: Id, message: Message,
                     runs: map<Id, Run>)
    requires InputsDense(works, messages, positions) && work in works && id !in messages
    requires 1 <= works[work].head
    requires message.work == work && message.input == works[work].head + 1 && ValidMessageText(message.text)
    requires RunsSound(works, messages, positions, runs)
    ensures RunsSound(works[work := works[work].(head := works[work].head + 1)], messages[id := message],
                      positions[InputSlot(work, message.input) := id], runs)
  {
    hide ValidMessageText, InputsDense, MessagesGrow, Inputs, Bounded;
    var later := works[work := works[work].(head := works[work].head + 1)];
    var laterPositions := positions[InputSlot(work, message.input) := id];
    AppendedInputs(works, messages, positions, work, id, message);
    forall r | r in runs ensures RunSound(later, messages[id := message], laterPositions, runs[r]) {
      var run := runs[r];
      assert RunSound(works, messages, positions, run);
      NoGoalMessage(later, messages[id := message], laterPositions, run.work);
      InputsStable(works, messages, positions, messages[id := message], laterPositions, run.work, run.first, run.last);
    }
  }

  // ----- Changing one Run -----

  /** A Run whose place in its Work's history is unchanged. */
  ghost predicate SameRange(run: Run, later: Run) {
    later.work == run.work && later.first == run.first && later.last == run.last && later.base == run.base
  }

  lemma RunsUpdated(works: map<Id, Work>, messages: Messages, positions: Positions, runs: map<Id, Run>, r: Id, run: Run)
    requires RunsSound(works, messages, positions, runs) && RunSound(works, messages, positions, run)
    ensures RunsSound(works, messages, positions, runs[r := run])
  {
    hide RunSound;
  }

  lemma LedgerKept(ledger: Ledger, later: State, r: Id, run: Run)
    requires LedgerSound(ledger) && later.works == ledger.rows.works && later.runs == ledger.rows.runs[r := run]
    requires r in ledger.rows.runs ==>
      SameRange(ledger.rows.runs[r], run) && ledger.rows.runs[r].state.RunSucceeded? == run.state.RunSucceeded?
    requires r !in ledger.rows.runs ==> !run.state.RunSucceeded?
    ensures LedgerSound(ledger.(rows := later))
  {
    var next := ledger.(rows := later);
    forall w ensures CommitsSound(later.works, later.runs, w, CommitsOf(next, w)) {
      assert CommitsSound(ledger.rows.works, ledger.rows.runs, w, CommitsOf(ledger, w));
      CommitsSkip(later.works, ledger.rows.runs, w, CommitsOf(ledger, w), r, run);
    }
  }

  lemma CommitsSkip(works: map<Id, Work>, runs: map<Id, Run>, work: Id, commits: seq<Id>, r: Id, run: Run)
    requires CommitsSound(works, runs, work, commits)
    requires r in runs ==> SameRange(runs[r], run) && runs[r].state.RunSucceeded? == run.state.RunSucceeded?
    requires r !in runs ==> !run.state.RunSucceeded?
    ensures CommitsSound(works, runs[r := run], work, commits)
  {
    var later := runs[r := run];
    forall i | 0 <= i < |commits| ensures CommitAt(works, later, work, commits, i) {
      assert CommitAt(works, runs, work, commits, i);
    }
    if |commits| > 0 { assert CommitAt(works, runs, work, commits, |commits| - 1); }
  }

  lemma RetriesSkip(runs: map<Id, Run>, byRetry: map<RetryKey, Id>, r: Id, run: Run)
    requires RetriesSound(runs, byRetry)
    requires if r in runs then run.work == runs[r].work && run.retry == runs[r].retry else run.retry.None?
    ensures RetriesSound(runs[r := run], byRetry)
  {}

  // ----- Claims -----

  lemma OpenedUnresolved(works: map<Id, Work>, runs: map<Id, Run>, unresolved: map<Id, Id>, r: Id, run: Run)
    requires UnresolvedSound(works, runs, unresolved) && r !in runs && run.work !in unresolved
    requires IsUnresolved(run) && Frozen(works, run)
    ensures UnresolvedSound(works, runs[r := run], unresolved[run.work := r])
  {
    hide Frozen;
  }

  lemma IndexedAttempt(runs: map<Id, Run>, attempts: map<Id, Attempt>, byFence: map<FenceKey, Id>, key: FenceKey)
    requires AttemptsSound(runs, attempts, byFence) && key in byFence
    ensures key.run in runs && 1 <= key.fence <= runs[key.run].fence
  {
    assert AttemptSound(runs, byFence, byFence[key], attempts[byFence[key]]);
  }

  lemma OpenedAttempts(runs: map<Id, Run>, attempts: map<Id, Attempt>, byFence: map<FenceKey, Id>, r: Id, run: Run,
                       a: Id, attempt: Attempt)
    requires AttemptsSound(runs, attempts, byFence) && r !in runs && a !in attempts
    requires run.fence == 1 && run.state.RunActive?
    requires attempt.run == r && attempt.fence == 1 && attempt.state.AttemptActive?
    ensures FenceKey(r, 1) !in byFence
    ensures AttemptsSound(runs[r := run], attempts[a := attempt], byFence[FenceKey(r, 1) := a])
  {
    var key := FenceKey(r, 1);
    assert key !in byFence by {
      if key in byFence { IndexedAttempt(runs, attempts, byFence, key); }
    }
    forall b | b in attempts ensures AttemptSound(runs[r := run], byFence[key := a], b, attempts[b]) {
      assert AttemptSound(runs, byFence, b, attempts[b]);
    }
    forall q | q in runs ensures RunAttempted(runs[r := run], attempts[a := attempt], byFence[key := a], q) {
      assert RunAttempted(runs, attempts, byFence, q);
    }
  }

  /** What a granted fresh Run adds to the rows. */
  lemma OpenGrant(s: State, work: Id, newRun: Id, command: ClaimCommand, newAttempt: Id)
    requires work in s.works && FenceKey(newRun, 1) !in s.byFence
    ensures var (t, r) := Grant(s, Opened(s, work, newRun), newRun, command, newAttempt);
      if newAttempt in s.attempts then t == s && r.Err?
      else
        var run := Opened(s, work, newRun).runs[newRun];
        && r.Ok?
        && t == s.(runs := s.runs[newRun := run], unresolved := s.unresolved[work := newRun],
                   attempts := s.attempts[newAttempt :=
                     Attempt(newRun, command.machine, 1, AttemptActive, command.leasedAt + LEASE)],
                   byFence := s.byFence[FenceKey(newRun, 1) := newAttempt])
  {
    hide SelectInputEnd, Inputs;
  }

  lemma OpenKeeps(ledger: Ledger, work: Id, newRun: Id, command: ClaimCommand, newAttempt: Id)
    requires Inv(ledger) && newRun !in ledger.rows.runs && work !in ledger.rows.unresolved
    requires work in ledger.rows.works && ledger.rows.works[work].applied < ledger.rows.works[work].head
    ensures Inv(ledger.(rows := Grant(ledger.rows, Opened(ledger.rows, work, newRun), newRun, command, newAttempt).0))
  {
    hide InputsDense, WorksSound, RunsSound, UnresolvedSound, AttemptsSound, ChecksSound, AcceptancesSound, RetriesSound,
      LedgerSound, Inputs, Bounded, SelectInputEnd, Grant;
    var s := ledger.rows;
    var row := s.works[work];
    UnopenedFence(s, newRun);
    OpenGrant(s, work, newRun, command, newAttempt);
    SelectedRange(s.works, s.messages, s.byInput, work, row.applied + 1);
    if newAttempt !in s.attempts {
      var run := Opened(s, work, newRun).runs[newRun];
      var attempt := Attempt(newRun, command.machine, 1, AttemptActive, command.leasedAt + LEASE);
      OpenedAttempts(s.runs, s.attempts, s.byFence, newRun, run, newAttempt, attempt);
      OpenedUnresolved(s.works, s.runs, s.unresolved, newRun, run);
      RunsUpdated(s.works, s.messages, s.byInput, s.runs, newRun, run);
      RetriesSkip(s.runs, s.byRetry, newRun, run);
      LedgerKept(ledger, Grant(s, Opened(s, work, newRun), newRun, command, newAttempt).0, newRun, run);
    }
  }

  lemma UnopenedFence(s: State, newRun: Id)
    requires AttemptsSound(s.runs, s.attempts, s.byFence) && newRun !in s.runs
    ensures FenceKey(newRun, 1) !in s.byFence
  {
    if FenceKey(newRun, 1) in s.byFence { IndexedAttempt(s.runs, s.attempts, s.byFence, FenceKey(newRun, 1)); }
  }

  lemma RotatedAttempts(runs: map<Id, Run>, attempts: map<Id, Attempt>, byFence: map<FenceKey, Id>, r: Id,
                        previous: Id, a: Id, attempt: Attempt)
    requires AttemptsSound(runs, attempts, byFence) && r in runs && a !in attempts
    requires FenceKey(r, runs[r].fence) in byFence && byFence[FenceKey(r, runs[r].fence)] == previous
    requires previous in attempts && runs[r].state.RunActive?
    requires attempt.run == r && attempt.fence == runs[r].fence + 1 && attempt.state.AttemptActive?
    ensures var key := FenceKey(r, runs[r].fence + 1);
      && key !in byFence
      && AttemptsSound(runs[r := runs[r].(fence := runs[r].fence + 1)],
                       attempts[previous := attempts[previous].(state := AttemptExpired)][a := attempt],
                       byFence[key := a])
  {
    var key := FenceKey(r, runs[r].fence + 1);
    var laterRuns := runs[r := runs[r].(fence := runs[r].fence + 1)];
    var laterAttempts := attempts[previous := attempts[previous].(state := AttemptExpired)][a := attempt];
    assert key !in byFence by {
      if key in byFence { IndexedAttempt(runs, attempts, byFence, key); }
    }
    assert attempts[previous].run == r && attempts[previous].fence == runs[r].fence;
    forall b | b in laterAttempts ensures AttemptSound(laterRuns, byFence[key := a], b, laterAttempts[b]) {
      if b != a { assert AttemptSound(runs, byFence, b, attempts[b]); }
    }
    forall q | q in laterRuns ensures RunAttempted(laterRuns, laterAttempts, byFence[key := a], q) {
      assert RunAttempted(runs, attempts, byFence, q);
      if q != r { assert attempts[byFence[FenceKey(q, runs[q].fence)]].run == q; }
    }
  }

  lemma UnresolvedUpdated(works: map<Id, Work>, runs: map<Id, Run>, unresolved: map<Id, Id>, r: Id, run: Run)
    requires UnresolvedSound(works, runs, unresolved) && r in runs && SameRange(runs[r], run)
    requires IsUnresolved(runs[r]) && IsUnresolved(run)
    ensures UnresolvedSound(works, runs[r := run], unresolved)
  {}

  lemma RecoverKeeps(ledger: Ledger, run: Id, space: Id, command: ClaimCommand, newAttempt: Id)
    requires Inv(ledger) && Expired(ledger.rows, run, space, command.selectedAt)
    ensures var t := Rotated(ledger.rows, run, CurrentAttempt(ledger.rows, run).value);
      Inv(ledger.(rows := Grant(ledger.rows, t, run, command, newAttempt).0))
  {
    hide InputsDense, WorksSound, RunsSound, UnresolvedSound, AttemptsSound, ChecksSound, AcceptancesSound, RetriesSound,
      LedgerSound, Inputs, Bounded;
    var s := ledger.rows;
    var previous := CurrentAttempt(s, run).value;
    var t := Rotated(s, run, previous);
    if newAttempt !in s.attempts {
      var attempt := Attempt(run, command.machine, s.runs[run].fence + 1, AttemptActive, command.leasedAt + LEASE);
      RotatedAttempts(s.runs, s.attempts, s.byFence, run, previous, newAttempt, attempt);
      UnresolvedUpdated(s.works, s.runs, s.unresolved, run, t.runs[run]);
      assert RunSound(s.works, s.messages, s.byInput, s.runs[run]) by { RunOf(s, run); }
      RunsUpdated(s.works, s.messages, s.byInput, s.runs, run, t.runs[run]);
      RetriesSkip(s.runs, s.byRetry, run, t.runs[run]);
      LedgerKept(ledger, Grant(s, t, run, command, newAttempt).0, run, t.runs[run]);
    }
  }

  lemma RunOf(s: State, run: Id)
    requires RunsSound(s.works, s.messages, s.byInput, s.runs) && run in s.runs
    ensures RunSound(s.works, s.messages, s.byInput, s.runs[run])
  {}

  lemma ClaimKeeps(ledger: Ledger, command: ClaimCommand, newRun: Id, newAttempt: Id)
    requires Inv(ledger)
    ensures Inv(ledger.(rows := ClaimRun(ledger.rows, command, newRun, newAttempt).0))
  {
    hide Inv, Rotated, Opened, Grant, Expired, Ready;
    var s := ledger.rows;
    if ActiveMachineSpace(s, command.machine).Ok? {
      var space := ActiveMachineSpace(s, command.machine).value;
      if command.expired.Some? && Expired(s, command.expired.value, space, command.selectedAt) {
        ExpiredIs(s, command.expired.value, space, command.selectedAt);
        RecoverKeeps(ledger, command.expired.value, space, command, newAttempt);
      } else if command.ready.Some? && Ready(s, command.ready.value, space) {
        ReadyIs(s, command.ready.value, space);
        if newRun !in s.runs && command.ready.value !in s.unresolved {
          OpenKeeps(ledger, command.ready.value, newRun, command, newAttempt);
        }
      }
    }
  }

  lemma ExpiredIs(s: State, run: Id, space: Id, now: int)
    requires Expired(s, run, space, now)
    ensures run in s.runs && CurrentAttempt(s, run).Some? && CurrentAttempt(s, run).value in s.attempts
  {}

  lemma ReadyIs(s: State, work: Id, space: Id)
    requires Ready(s, work, space)
    ensures work in s.works && s.works[work].applied < s.works[work].head
  {}

  // ----- Attempts -----

  lemma AttemptsUpdated(runs: map<Id, Run>, attempts: map<Id, Attempt>, byFence: map<FenceKey, Id>, a: Id, lease: int)
    requires AttemptsSound(runs, attempts, byFence) && a in attempts
    ensures AttemptsSound(runs, attempts[a := attempts[a].(leaseExpiresAt := lease)], byFence)
  {
    var later := attempts[a := attempts[a].(leaseExpiresAt := lease)];
    forall b | b in later ensures AttemptSound(runs, byFence, b, later[b]) {
      assert AttemptSound(runs, byFence, b, attempts[b]);
    }
    forall r | r in runs ensures RunAttempted(runs, later, byFence, r) {
      assert RunAttempted(runs, attempts, byFence, r);
    }
  }

  lemma RenewKeeps(ledger: Ledger, key: AttemptKey, now: int)
    requires Inv(ledger)
    ensures Inv(ledger.(rows := Renew(ledger.rows, key, now).0))
  {
    hide InputsDense, WorksSound, RunsSound, UnresolvedSound, AttemptsSound, ChecksSound, AcceptancesSound, RetriesSound,
      CommitsSound;
    var s, t := ledger.rows, Renew(ledger.rows, key, now).0;
    if t != s {
      AttemptsUpdated(s.runs, s.attempts, s.byFence, key.attempt, now + LEASE);
    }
    assert forall w :: CommitsOf(ledger.(rows := t), w) == CommitsOf(ledger, w);
  }

  /** The current Attempt and its Run leave the active state together. */
  lemma AttemptEnds(runs: map<Id, Run>, attempts: map<Id, Attempt>, byFence: map<FenceKey, Id>, a: Id, run: Run,
                    state: AttemptState)
    requires AttemptsSound(runs, attempts, byFence) && a in attempts && attempts[a].run in runs
    requires attempts[a].fence == runs[attempts[a].run].fence
    requires run.fence == runs[attempts[a].run].fence && !run.state.RunActive? && !state.AttemptActive?
    ensures AttemptsSound(runs[attempts[a].run := run], attempts[a := attempts[a].(state := state)], byFence)
  {
    var r := attempts[a].run;
    var laterRuns, laterAttempts := runs[r := run], attempts[a := attempts[a].(state := state)];
    assert AttemptSound(runs, byFence, a, attempts[a]);
    forall b | b in laterAttempts ensures AttemptSound(laterRuns, byFence, b, laterAttempts[b]) {
      assert AttemptSound(runs, byFence, b, attempts[b]);
    }
    forall q | q in laterRuns ensures RunAttempted(laterRuns, laterAttempts, byFence, q) {
      assert RunAttempted(runs, attempts, byFence, q);
      if q != r { assert attempts[byFence[FenceKey(q, runs[q].fence)]].run == q; }
    }
  }

  lemma FinishKeeps(ledger: Ledger, key: AttemptKey, outcome: Outcome, now: int)
    requires Inv(ledger)
    ensures Inv(ledger.(rows := Finish(ledger.rows, key, outcome, now).0))
  {
    hide InputsDense, WorksSound, RunsSound, UnresolvedSound, AttemptsSound, ChecksSound, AcceptancesSound, RetriesSound,
      LedgerSound, Inputs, Bounded;
    var s, t := ledger.rows, Finish(ledger.rows, key, outcome, now).0;
    if t != s {
      var run := t.runs[key.run];
      RunOf(s, key.run);
      AttemptEnds(s.runs, s.attempts, s.byFence, key.attempt, run, t.attempts[key.attempt].state);
      UnresolvedUpdated(s.works, s.runs, s.unresolved, key.run, run);
      RunsUpdated(s.works, s.messages, s.byInput, s.runs, key.run, run);
      RetriesSkip(s.runs, s.byRetry, key.run, run);
      LedgerKept(ledger, t, key.run, run);
    }
  }

  // ----- Retry and review -----

  lemma ReleasedUnresolved(works: map<Id, Work>, runs: map<Id, Run>, unresolved: map<Id, Id>, r: Id, run: Run)
    requires UnresolvedSound(works, runs, unresolved) && r in runs && SameRange(runs[r], run)
    requires IsUnresolved(runs[r]) && !IsUnresolved(run)
    ensures UnresolvedSound(works, runs[r := run], unresolved - {run.work})
  {}

  lemma RetriesAdded(runs: map<Id, Run>, byRetry: map<RetryKey, Id>, r: Id, retry: Retry)
    requires RetriesSound(runs, byRetry) && r in runs && runs[r].retry.None?
    requires RetryKey(runs[r].work, retry.key) !in byRetry
    ensures RetriesSound(runs[r := runs[r].(retry := Some(retry))], byRetry[RetryKey(runs[r].work, retry.key) := r])
  {}

  lemma AttemptsSkip(runs: map<Id, Run>, attempts: map<Id, Attempt>, byFence: map<FenceKey, Id>, r: Id, run: Run)
    requires AttemptsSound(runs, attempts, byFence) && r in runs && run.fence == runs[r].fence
    requires run.state == runs[r].state
    ensures AttemptsSound(runs[r := run], attempts, byFence)
  {
    var later := runs[r := run];
    forall b | b in attempts ensures AttemptSound(later, byFence, b, attempts[b]) {
      assert AttemptSound(runs, byFence, b, attempts[b]);
    }
    forall q | q in later ensures RunAttempted(later, attempts, byFence, q) {
      assert RunAttempted(runs, attempts, byFence, q);
    }
  }

  lemma RetryKeeps(ledger: Ledger, command: RetryCommand)
    requires Inv(ledger)
    ensures Inv(ledger.(rows := RequestRetry(ledger.rows, command).0))
  {
    hide Normalize, InputsDense, WorksSound, RunsSound, UnresolvedSound, AttemptsSound, ChecksSound, AcceptancesSound,
      RetriesSound, LedgerSound, Inputs, Bounded;
    var s, t := ledger.rows, RequestRetry(ledger.rows, command).0;
    if t != s {
      var r := s.unresolved[command.work];
      var run := t.runs[r];
      RunOf(s, r);
      UnresolvedIs(s, command.work);
      ReleasedUnresolved(s.works, s.runs, s.unresolved, r, run);
      RetriesAdded(s.runs, s.byRetry, r, run.retry.value);
      AttemptsSkip(s.runs, s.attempts, s.byFence, r, run);
      RunsUpdated(s.works, s.messages, s.byInput, s.runs, r, run);
      LedgerKept(ledger, t, r, run);
    }
  }

  lemma UnresolvedIs(s: State, work: Id)
    requires UnresolvedSound(s.works, s.runs, s.unresolved) && work in s.unresolved
    ensures s.unresolved[work] in s.runs && s.runs[s.unresolved[work]].work == work
    ensures IsUnresolved(s.runs[s.unresolved[work]])
  {}

  lemma AcceptKeeps(ledger: Ledger, command: AcceptCommand)
    requires Inv(ledger)
    ensures Inv(ledger.(rows := AcceptReview(ledger.rows, command).0))
  {
    hide Normalize, InputsDense, WorksSound, RunsSound, UnresolvedSound, AttemptsSound, ChecksSound, AcceptancesSound,
      RetriesSound, CommitsSound, ReviewDigest, AcceptanceDigest, CurrentReview;
    var s, t := ledger.rows, AcceptReview(ledger.rows, command).0;
    if t != s {
      AcceptedChecks(s, command, Normalize(command.key, MAX_KEY).value);
    }
    assert forall w :: CommitsOf(ledger.(rows := t), w) == CommitsOf(ledger, w);
  }

  lemma AcceptedChecks(s: State, command: AcceptCommand, key: Bytes)
    requires ChecksSound(s.works, s.checks, s.byVersion) && AcceptancesSound(s.checks, s.byAcceptance)
    requires command.review in s.checks && s.checks[command.review].acceptance.None?
    requires s.checks[command.review].work == command.work
    ensures var acceptance := Acceptance(command.member.user, key, AcceptanceDigest(command.work, command.review));
      var checks := s.checks[command.review := s.checks[command.review].(acceptance := Some(acceptance))];
      && ChecksSound(s.works, checks, s.byVersion)
      && AcceptancesSound(checks, s.byAcceptance[AcceptanceKey(command.work, command.member.user, key) := command.review])
  {
    hide ReviewDigest, AcceptanceDigest;
    var acceptance := Acceptance(command.member.user, key, AcceptanceDigest(command.work, command.review));
    var checks := s.checks[command.review := s.checks[command.review].(acceptance := Some(acceptance))];
    forall c | c in checks ensures CheckSound(s.works, s.byVersion, c, checks[c]) {
      assert CheckSound(s.works, s.byVersion, c, s.checks[c]);
    }
  }

  // ----- Commits -----

  /** The frozen base: a current Run's Work is where the Run found it. */
  lemma BaseIsFrozen(s: State, key: AttemptKey)
    requires UnresolvedSound(s.works, s.runs, s.unresolved) && RunsSound(s.works, s.messages, s.byInput, s.runs)
    requires Authorized(s, key)
    ensures var run := s.runs[key.run];
      && run.work in s.works && s.works[run.work].version == run.base && s.works[run.work].applied == run.first - 1
      && run.last <= s.works[run.work].head && run.work in s.unresolved && s.unresolved[run.work] == key.run
  {
    hide Inputs, Bounded;
    assert RunSound(s.works, s.messages, s.byInput, s.runs[key.run]);
  }

  /** The Work after a commit. */
  ghost predicate Moved(work: Work, later: Work, last: nat, update: Understanding) {
    later == work.(applied := last, version := work.version + 1, current := Some(update))
  }

  lemma CommittedWorks(works: map<Id, Work>, messages: Messages, positions: Positions, w: Id, later: Work, last: nat,
                       update: Understanding)
    requires WorksSound(works) && InputsDense(works, messages, positions) && w in works
    requires Moved(works[w], later, last, update) && last <= works[w].head
    requires Admitted(update.text, MAX_UNDERSTANDING) && Admitted(update.nextStep, MAX_NEXT_STEP)
    requires ValidateUpdate(update.text, update.nextStep) == Some(update)
    ensures WorksSound(works[w := later]) && InputsDense(works[w := later], messages, positions)
  {
    hide ValidateUpdate, Normalize, Admitted, ValidMessageText;
    CommittedInputs(works, messages, positions, w, later);
    hide InputsDense;
  }

  lemma CommittedInputs(works: map<Id, Work>, messages: Messages, positions: Positions, w: Id, row: Work)
    requires InputsDense(works, messages, positions) && w in works && row.head == works[w].head
    ensures InputsDense(works[w := row], messages, positions)
  {
    hide ValidMessageText;
    var later := works[w := row];
    forall slot: InputSlot ensures slot in positions <==> slot.work in later && 2 <= slot.input <= later[slot.work].head {
      assert slot in positions <==> slot.work in works && 2 <= slot.input <= works[slot.work].head;
    }
  }

  lemma CommittedRuns(works: map<Id, Work>, messages: Messages, positions: Positions, runs: map<Id, Run>, w: Id, row: Work,
                      r: Id, run: Run)
    requires RunsSound(works, messages, positions, runs) && w in works && row.head == works[w].head
    requires r in runs && run == runs[r].(state := RunSucceeded) && runs[r].retry.None?
    ensures RunsSound(works[w := row], messages, positions, runs[r := run])
  {
    hide Inputs, Bounded;
    forall q | q in runs ensures RunSound(works[w := row], messages, positions, runs[r := run][q]) {
      assert RunSound(works, messages, positions, runs[q]);
    }
  }

  lemma CommittedUnresolved(works: map<Id, Work>, runs: map<Id, Run>, unresolved: map<Id, Id>, r: Id, row: Work)
    requires UnresolvedSound(works, runs, unresolved) && r in runs && IsUnresolved(runs[r])
    ensures UnresolvedSound(works[runs[r].work := row], runs[r := runs[r].(state := RunSucceeded)],
                            unresolved - {runs[r].work})
  {}

  lemma CommittedChecks(works: map<Id, Work>, checks: map<Id, Check>, byVersion: map<VersionKey, Id>, w: Id, row: Work)
    requires ChecksSound(works, checks, byVersion) && w in works && row.version == works[w].version + 1
    ensures ChecksSound(works[w := row], checks, byVersion)
  {
    hide ReviewDigest;
    forall c | c in checks ensures CheckSound(works[w := row], byVersion, c, checks[c]) {
      assert CheckSound(works, byVersion, c, checks[c]);
    }
  }

  lemma IndexedCheck(works: map<Id, Work>, checks: map<Id, Check>, byVersion: map<VersionKey, Id>, key: VersionKey)
    requires ChecksSound(works, checks, byVersion) && key in byVersion
    ensures key.work in works && 1 <= key.version <= works[key.work].version
  {
    assert CheckSound(works, byVersion, byVersion[key], checks[byVersion[key]]);
  }

  /** No review of a version that is only now committed exists yet. */
  lemma NextVersionUnreviewed(works: map<Id, Work>, checks: map<Id, Check>, byVersion: map<VersionKey, Id>, w: Id)
    requires ChecksSound(works, checks, byVersion) && w in works
    ensures VersionKey(w, works[w].version + 1) !in byVersion
  {
    var key := VersionKey(w, works[w].version + 1);
    if key in byVersion { IndexedCheck(works, checks, byVersion, key); }
  }

  lemma ReviewAdded(works: map<Id, Work>, checks: map<Id, Check>, byVersion: map<VersionKey, Id>, c: Id, check: Check)
    requires ChecksSound(works, checks, byVersion) && c !in checks
    requires VersionKey(check.work, check.version) !in byVersion
    requires CheckSound(works, byVersion[VersionKey(check.work, check.version) := c], c, check)
    ensures ChecksSound(works, checks[c := check], byVersion[VersionKey(check.work, check.version) := c])
  {
    hide ReviewDigest;
    var later := byVersion[VersionKey(check.work, check.version) := c];
    forall d | d in checks ensures CheckSound(works, later, d, checks[d]) {
      assert CheckSound(works, byVersion, d, checks[d]);
    }
  }

  lemma AcceptancesKeep(checks: map<Id, Check>, byAcceptance: map<AcceptanceKey, Id>, c: Id, check: Check)
    requires AcceptancesSound(checks, byAcceptance) && c !in checks
    ensures AcceptancesSound(checks[c := check], byAcceptance)
  {
    hide AcceptanceDigest;
  }

  lemma CommittedCommits(works: map<Id, Work>, runs: map<Id, Run>, commits: seq<Id>, r: Id, row: Work)
    requires r in runs && runs[r].work in works && CommitsSound(works, runs, runs[r].work, commits)
    requires !runs[r].state.RunSucceeded? && 1 <= runs[r].first <= runs[r].last
    requires works[runs[r].work].version == runs[r].base && works[runs[r].work].applied == runs[r].first - 1
    requires row.version == works[runs[r].work].version + 1 && row.applied == runs[r].last
    ensures CommitsSound(works[runs[r].work := row], runs[r := runs[r].(state := RunSucceeded)], runs[r].work, commits + [r])
  {
    var work := runs[r].work;
    var later := runs[r := runs[r].(state := RunSucceeded)];
    var all := commits + [r];
    var laterWorks := works[work := row];
    if commits != [] { assert CommitAt(works, runs, work, commits, |commits| - 1); }
    forall i | 0 <= i < |all| ensures CommitAt(laterWorks, later, work, all, i) {
      if i < |commits| { assert CommitAt(works, runs, work, commits, i); }
    }
  }

  lemma OtherCommits(works: map<Id, Work>, runs: map<Id, Run>, work: Id, commits: seq<Id>, r: Id, row: Work)
    requires r in runs && runs[r].work in works && runs[r].work != work && CommitsSound(works, runs, work, commits)
    ensures CommitsSound(works[runs[r].work := row], runs[r := runs[r].(state := RunSucceeded)], work, commits)
  {
    var later := runs[r := runs[r].(state := RunSucceeded)];
    var laterWorks := works[runs[r].work := row];
    forall i | 0 <= i < |commits| ensures CommitAt(laterWorks, later, work, commits, i) {
      assert CommitAt(works, runs, work, commits, i);
    }
    if commits != [] { assert CommitAt(works, runs, work, commits, |commits| - 1); }
  }

  lemma UpdateAdmitted(understanding: Bytes, nextStep: Bytes)
    requires ValidateUpdate(understanding, nextStep).Some?
    ensures var update := ValidateUpdate(understanding, nextStep).value;
      && Admitted(update.text, MAX_UNDERSTANDING) && Admitted(update.nextStep, MAX_NEXT_STEP)
      && ValidateUpdate(update.text, update.nextStep) == Some(update)
  {
    hide Normalize, Admitted;
    NormalizeIdempotent(understanding, MAX_UNDERSTANDING);
    NormalizeIdempotent(nextStep, MAX_NEXT_STEP);
  }

  lemma CommittedRows(s: State, command: CommitCommand, update: Understanding, newReview: Id, review: bool)
    requires RowInv(s) && Authorized(s, command.key) && s.runs[command.key.run].work in s.works
    requires review ==> newReview !in s.checks && s.runs[command.key.run].last == s.works[s.runs[command.key.run].work].head
    requires Admitted(update.text, MAX_UNDERSTANDING) && Admitted(update.nextStep, MAX_NEXT_STEP)
    requires ValidateUpdate(update.text, update.nextStep) == Some(update)
    ensures RowInv(Committed(s, command, update, newReview, review))
  {
    hide InputsDense, WorksSound, RunsSound, UnresolvedSound, AttemptsSound, ChecksSound, AcceptancesSound, RetriesSound,
      Inputs, Bounded, ValidateUpdate, Admitted, ReviewDigest;
    var r := command.key.run;
    var run := s.runs[r];
    var t := Committed(s, command, update, newReview, review);
    var row := t.works[run.work];
    BaseIsFrozen(s, command.key);
    RunOf(s, r);
    CommittedWorks(s.works, s.messages, s.byInput, run.work, row, run.last, update);
    CommittedRuns(s.works, s.messages, s.byInput, s.runs, run.work, row, r, t.runs[r]);
    CommittedUnresolved(s.works, s.runs, s.unresolved, r, row);
    AttemptEnds(s.runs, s.attempts, s.byFence, command.key.attempt, t.runs[r], AttemptSucceeded);
    RetriesSkip(s.runs, s.byRetry, r, t.runs[r]);
    CommittedChecks(s.works, s.checks, s.byVersion, run.work, row);
    if review {
      NextVersionUnreviewed(s.works, s.checks, s.byVersion, run.work);
      ReviewAdded(t.works, s.checks, s.byVersion, newReview, t.checks[newReview]);
      AcceptancesKeep(s.checks, s.byAcceptance, newReview, t.checks[newReview]);
    }
  }

  lemma CommitKeeps(ledger: Ledger, command: CommitCommand, newReview: Id, now: int)
    requires Inv(ledger)
    ensures Inv(Step(ledger, OpCommit(command, newReview, now)))
  {
    hide RowInv, LedgerSound, ValidateUpdate, Committed, CommitsSound;
    var s := ledger.rows;
    if Commit(s, command, newReview, now).1.Ok? {
      CommitSucceeds(s, command, newReview, now);
      UpdateAdmitted(command.understanding, command.nextStep);
      var update := ValidateUpdate(command.understanding, command.nextStep).value;
      var work := s.works[s.runs[command.key.run].work];
      var review := command.reviewRequired && s.runs[command.key.run].last == work.head;
      CommittedRows(s, command, update, newReview, review);
      CommittedLedger(ledger, command, update, newReview, review);
    }
  }

  lemma CommittedLedger(ledger: Ledger, command: CommitCommand, update: Understanding, newReview: Id, review: bool)
    requires Inv(ledger) && Authorized(ledger.rows, command.key)
    requires ledger.rows.runs[command.key.run].work in ledger.rows.works
    ensures var work := ledger.rows.runs[command.key.run].work;
      LedgerSound(Ledger(Committed(ledger.rows, command, update, newReview, review),
                         ledger.commits[work := CommitsOf(ledger, work) + [command.key.run]]))
  {
    hide InputsDense, WorksSound, AttemptsSound, ChecksSound, AcceptancesSound, RetriesSound, RunsSound, UnresolvedSound,
      CommitsSound, Inputs, Bounded;
    var s := ledger.rows;
    var r := command.key.run;
    var work := s.runs[r].work;
    var t := Committed(s, command, update, newReview, review);
    var next := Ledger(t, ledger.commits[work := CommitsOf(ledger, work) + [r]]);
    BaseIsFrozen(s, command.key);
    RunOf(s, r);
    forall w ensures CommitsSound(t.works, t.runs, w, CommitsOf(next, w)) {
      assert CommitsSound(s.works, s.runs, w, CommitsOf(ledger, w));
      if w == work {
        CommittedCommits(s.works, s.runs, CommitsOf(ledger, w), r, t.works[work]);
      } else {
        OtherCommits(s.works, s.runs, w, CommitsOf(ledger, w), r, t.works[work]);
      }
    }
  }
}
