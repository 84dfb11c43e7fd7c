/** What every transaction of the private reply protocol keeps, and what the rows imply. */
module ReplyInvariant {
  import opened Wrappers
  import opened Ids
  import opened Text
  import opened Context
  import opened Reply

  function Head(s: State, conversation: Id): nat {
    if conversation in s.conversations then s.conversations[conversation].head else 0
  }

  function Position(s: State, id: Id): nat
    requires id in s.messages
  {
    s.messages[id].slot.position
  }

  /** Every Conversation's messages are numbered exactly 1..head. */
  ghost predicate Numbered(s: State) {
    && (forall slot :: slot in s.bySlot <==>
          slot.conversation in s.conversations && 1 <= slot.position <= Head(s, slot.conversation))
    && (forall slot :: slot in s.bySlot ==>
          s.bySlot[slot] in s.messages && s.messages[s.bySlot[slot]].slot == slot)
    && (forall id :: id in s.messages ==>
          s.messages[id].slot in s.bySlot && s.bySlot[s.messages[id].slot] == id)
  }

  /** Odd entries are member messages and even entries Carry's, all of admitted size. */
  ghost predicate Alternating(s: State) {
    forall id :: id in s.messages ==>
      var m := s.messages[id];
      && Admitted(m.content.text, MAX_MESSAGE_TEXT)
      && m.content.author == (if m.slot.position % 2 == 1 then Author.Member else Carry)
      && (m.request.Some? <==> m.slot.position % 2 == 1)
  }

  /** A Carry entry answers the entry just before it. */
  ghost predicate Answering(s: State) {
    forall id, previous ::
      (id in s.messages && previous in s.messages
       && s.messages[id].slot.conversation == s.messages[previous].slot.conversation
       && s.messages[id].slot.position == s.messages[previous].slot.position + 1
       && s.messages[id].slot.position % 2 == 0) ==> s.messages[id].replyTo == Some(previous)
  }

  /** One Conversation for each member of a Space. */
  ghost predicate Owned(s: State) {
    && (forall owner :: owner in s.byOwner ==>
          s.byOwner[owner] in s.conversations && s.conversations[s.byOwner[owner]].owner == owner)
    && (forall c :: c in s.conversations ==>
          s.conversations[c].owner in s.byOwner && s.byOwner[s.conversations[c].owner] == c)
  }

  /** The request index finds a message by the key that admitted it. */
  ghost predicate Indexed(s: State, id: Id)
    requires id in s.messages
  {
    var m := s.messages[id];
    m.request.Some? ==>
      && Request(m.slot.conversation, m.request.value) in s.byRequest
      && s.byRequest[Request(m.slot.conversation, m.request.value)] == id
  }

  /** Each admitted request key names exactly the message it admitted. */
  ghost predicate Requested(s: State) {
    && (forall r :: r in s.byRequest ==>
          && s.byRequest[r] in s.messages
          && r.conversation in s.conversations
          && var m := s.messages[s.byRequest[r]];
             && m.slot.conversation == r.conversation
             && m.request == Some(r.key)
             && m.digest == MessageDigest(s.conversations[r.conversation].owner, m.content.text))
    && (forall id {:trigger Indexed(s, id)} :: id in s.messages ==> Indexed(s, id))
  }

  /** The log of the source's Conversation up to and including the source. */
  function LogUpTo(s: State, source: Id): seq<ContextMessage>
    requires source in s.messages
  {
    Contents(Rows(s, s.messages[source].slot.conversation, 1, Position(s, source)))
  }

  /** The one context a source message can ever be answered from. */
  function ContextOf(s: State, source: Id): seq<ContextMessage>
    requires source in s.messages
  {
    var fixed := FixedSuffix(LogUpTo(s, source));
    if fixed.Ok? then fixed.value else []
  }

  /** The goal of the Work a commit delegated. */
  function GoalOf(s: State, work: Option<Id>): Option<Bytes> {
    if work.Some? && work.value in s.works then Some(s.works[work.value].goal) else None
  }

  /** The reply obligation of one source message. */
  ghost predicate ClaimShape(s: State, source: Id)
    requires Numbered(s) && source in s.claims && source in s.messages
  {
    var claim := s.claims[source];
    var slot := s.messages[source].slot;
    && claim.conversation == slot.conversation
    && slot.position % 2 == 1
    && (claim.machine.None? ==>
          claim.fence == 0 && claim.contextStart.None? && claim.contextEnd.None? && claim.committedReply.None?)
    && (claim.machine.Some? ==>
          claim.fence > 0 && claim.contextStart.Some? && claim.contextEnd == Some(slot.position))
    && (claim.committedReply.None? ==> slot.position == Head(s, slot.conversation) && claim.createdWork.None?)
    && (claim.committedReply.Some? ==>
          && Slot(slot.conversation, slot.position + 1) in s.bySlot
          && s.bySlot[Slot(slot.conversation, slot.position + 1)] == claim.committedReply.value)
  }

  /** Every recorded context begins where the source's context begins. */
  ghost predicate Fixed(s: State) {
    forall source :: source in s.claims && source in s.messages && s.claims[source].contextStart.Some? ==>
      s.claims[source].contextStart.value == Position(s, source) + 1 - |ContextOf(s, source)|
  }

  ghost predicate Claimed(s: State)
    requires Numbered(s)
  {
    && (forall id {:trigger id in s.claims} :: id in s.claims ==> id in s.messages && ClaimShape(s, id))
    && (forall id {:trigger id in s.claims} ::
          id in s.messages && s.messages[id].slot.position % 2 == 1 ==> id in s.claims)
  }

  /** Delegated Works are exactly the Works of committed claims, one claim each. */
  ghost predicate Delegated(s: State) {
    && (forall work :: work in s.works ==> Delegates(s, work))
    && (forall source :: source in s.claims && s.claims[source].createdWork.Some? ==> OwnedWork(s, source))
    && OneClaimEach(s)
  }

  /** A delegated Work belongs to the member whose message asked for it. */
  ghost predicate OwnedWork(s: State, source: Id)
    requires source in s.claims && s.claims[source].createdWork.Some?
  {
    var claim := s.claims[source];
    && claim.createdWork.value in s.works
    && claim.conversation in s.conversations
    && var work := s.works[claim.createdWork.value];
       MemberKey(work.space, work.owner) == s.conversations[claim.conversation].owner
  }

  ghost predicate OneClaimEach(s: State) {
    forall a, b ::
      (a in s.claims && b in s.claims && s.claims[a].createdWork.Some?
       && s.claims[a].createdWork == s.claims[b].createdWork) ==> a == b
  }

  ghost predicate Delegates(s: State, work: Id) {
    exists source :: source in s.claims && s.claims[source].createdWork == Some(work)
  }

  /** The candidate that a committed claim recorded: its reply, and the goal of its Work. */
  function RecordedCandidate(s: State, claim: Claim): Candidate
    requires claim.committedReply.Some? && claim.committedReply.value in s.messages
  {
    Candidate(s.messages[claim.committedReply.value].content.text, GoalOf(s, claim.createdWork))
  }

  /** A committed claim's digest is the digest of the candidate it recorded. */
  ghost predicate Recorded(s: State) {
    forall source :: source in s.claims && s.claims[source].committedReply.Some? ==>
      && s.claims[source].committedReply.value in s.messages
      && (s.claims[source].createdWork.Some? ==> s.claims[source].createdWork.value in s.works)
      && s.claims[source].outputDigest == OutputDigest(source, RecordedCandidate(s, s.claims[source]))
  }

  ghost predicate Inv(s: State) {
    Numbered(s) && Alternating(s) && Answering(s) && Owned(s) && Requested(s) && Claimed(s) && Fixed(s) && Delegated(s) && Recorded(s)
  }

  // ----- Rows of a numbered log -----

  lemma {:induction false} RowsAreDense(s: State, c: Id, first: nat, last: nat)
    requires Numbered(s) && 1 <= first && first <= last + 1 && last <= Head(s, c)
    ensures |Rows(s, c, first, last)| == last + 1 - first
    ensures forall i :: 0 <= i < |Rows(s, c, first, last)| ==>
      Slot(c, first + i) in s.bySlot
      && Rows(s, c, first, last)[i] == Row(first + i, s.messages[s.bySlot[Slot(c, first + i)]].content)
    decreases last
  {
    if last >= first {
      RowsAreDense(s, c, first, last - 1);
      assert Slot(c, last) in s.bySlot;
    }
  }

  lemma {:induction false} NewestRowsAreRows(s: State, c: Id, last: nat, limit: nat)
    requires Numbered(s) && last <= Head(s, c)
    ensures NewestRows(s, c, last, limit) == Rows(s, c, if limit < last then last - limit + 1 else 1, last)
    decreases last
  {
    if limit == 0 || last == 0 {
    } else {
      assert Slot(c, last) in s.bySlot;
      NewestRowsAreRows(s, c, last - 1, limit - 1);
    }
  }

  /** A log on which later entries were appended reads the same up to its old head. */
  ghost predicate LogGrows(s: State, t: State) {
    && (forall id :: id in s.messages ==> id in t.messages && t.messages[id] == s.messages[id])
    && (forall slot :: slot in s.bySlot ==> slot in t.bySlot && t.bySlot[slot] == s.bySlot[slot])
  }

  lemma {:induction false} RowsStable(s: State, t: State, c: Id, first: nat, last: nat)
    requires Numbered(s) && LogGrows(s, t) && 1 <= first && last <= Head(s, c)
    ensures Rows(t, c, first, last) == Rows(s, c, first, last)
    decreases last
  {
    if last >= first && last > 0 {
      RowsStable(s, t, c, first, last - 1);
      assert Slot(c, last) in s.bySlot;
    }
  }

  lemma ContextStable(s: State, t: State, source: Id)
    requires Numbered(s) && LogGrows(s, t) && source in s.messages
    ensures source in t.messages && ContextOf(t, source) == ContextOf(s, source)
  {
    var slot := s.messages[source].slot;
    assert slot in s.bySlot;
    RowsStable(s, t, slot.conversation, 1, slot.position);
  }

  lemma SuffixOfRows(s: State, c: Id, last: nat, n: nat)
    requires Numbered(s) && n <= last <= Head(s, c)
    ensures |Rows(s, c, 1, last)| == last && |Rows(s, c, last + 1 - n, last)| == n
    ensures Contents(Rows(s, c, last + 1 - n, last)) == Newest(Contents(Rows(s, c, 1, last)), n)
  {
    RowsAreDense(s, c, 1, last);
    RowsAreDense(s, c, last + 1 - n, last);
    var whole, part := Rows(s, c, 1, last), Rows(s, c, last + 1 - n, last);
    forall i | 0 <= i < n ensures part[i] == whole[last - n + i] {}
  }

  lemma LogIsValid(s: State, source: Id)
    requires Numbered(s) && Alternating(s) && source in s.messages
    ensures |LogUpTo(s, source)| == Position(s, source) > 0 && AllValid(LogUpTo(s, source))
  {
    var slot := s.messages[source].slot;
    assert slot in s.bySlot;
    RowsAreDense(s, slot.conversation, 1, slot.position);
    var log := LogUpTo(s, source);
    forall i | 0 <= i < |log| ensures ValidMessage(log[i]) {
      var id := s.bySlot[Slot(slot.conversation, 1 + i)];
      assert log[i] == s.messages[id].content;
    }
  }

  /** The context is the longest fitting suffix of the log, and it ends with the source. */
  lemma ContextIsSuffix(s: State, source: Id)
    requires Numbered(s) && Alternating(s) && source in s.messages
    ensures 0 < |ContextOf(s, source)| <= Position(s, source)
    ensures FixedSuffix(LogUpTo(s, source)) == Ok(ContextOf(s, source))
    ensures ContextOf(s, source) ==
      Contents(Rows(s, s.messages[source].slot.conversation, Position(s, source) + 1 - |ContextOf(s, source)|, Position(s, source)))
  {
    hide FixedSuffix, Rows, Contents, AllValid, Fits;
    var slot := s.messages[source].slot;
    assert slot in s.bySlot;
    LogIsValid(s, source);
    LongestFittingSuffix(LogUpTo(s, source));
    SuffixOfRows(s, slot.conversation, slot.position, |ContextOf(s, source)|);
  }

  /** The candidate query returns the newest rows of the log, at most 32 of them. */
  lemma CandidateRows(s: State, c: Id, last: nat)
    requires Numbered(s) && last <= Head(s, c)
    ensures var rows := NewestRows(s, c, last, MAX_CONTEXT_MESSAGES);
      && |rows| == (if last > 32 then 32 else last)
      && |Rows(s, c, 1, last)| == last
      && Contents(rows) == Newest(Contents(Rows(s, c, 1, last)), |rows|)
      && forall i :: 0 <= i < |rows| ==> rows[i].position == last + 1 - |rows| + i
  {
    var n := if last > 32 then 32 else last;
    NewestRowsAreRows(s, c, last, MAX_CONTEXT_MESSAGES);
    SuffixOfRows(s, c, last, n);
    RowsAreDense(s, c, last + 1 - n, last);
  }

  /** Selecting from the candidate rows chooses the same suffix as selecting from the log. */
  lemma CandidatesSuffice(s: State, source: Id)
    requires Numbered(s) && Alternating(s) && source in s.messages
    ensures var slot := s.messages[source].slot;
      var rows := NewestRows(s, slot.conversation, slot.position, MAX_CONTEXT_MESSAGES);
      && FixedSuffix(Contents(rows)) == Ok(ContextOf(s, source))
      && 0 < |ContextOf(s, source)| <= |rows|
      && rows[|rows| - |ContextOf(s, source)|].position == slot.position + 1 - |ContextOf(s, source)|
  {
    hide FixedSuffix, Rows, Contents, AllValid, NewestRows;
    var slot := s.messages[source].slot;
    var log := LogUpTo(s, source);
    LogIsValid(s, source);
    ContextIsSuffix(s, source);
    assert slot in s.bySlot;
    CandidateRows(s, slot.conversation, slot.position);
    var rows := NewestRows(s, slot.conversation, slot.position, MAX_CONTEXT_MESSAGES);
    assert Contents(rows) == Newest(log, |rows|);
    LastRowsSuffice(log, Contents(rows));
  }

  /** Whatever the claim records, the range selected for it is the source's context. */
  lemma RangeIsContext(s: State, source: Id)
    requires Numbered(s) && Alternating(s) && Fixed(s)
    requires source in s.claims && source in s.messages && ClaimShape(s, source)
    ensures ContextRange(s, source) ==
      Ok((Position(s, source) + 1 - |ContextOf(s, source)|, Position(s, source)))
  {
    hide FixedSuffix, ContextOf, Rows, NewestRows, Contents;
    if s.claims[source].machine.None? {
      CandidatesSuffice(s, source);
    }
  }
}
