/** The value checks a Host applies to what the server hands out, before acting on it. */
module HostGate {
  import opened Wrappers
  import opened Ids
  import opened Context
  import opened Reply
  import opened Text
  import WorkRun

  /** A reply claim the Host is willing to answer. */
  predicate AcceptableGrant(grant: Grant) {
    && grant.fence > 0
    && FixedSuffix(grant.messages).Ok? && |FixedSuffix(grant.messages).value| == |grant.messages|
    && grant.messages[|grant.messages| - 1].author == Author.Member
    && forall i :: 1 <= i < |grant.messages| ==> grant.messages[i - 1].author != grant.messages[i].author
  }

  /** The gate in `ClaimConversation`, message by message. */
  method AcceptGrant(grant: Grant) returns (accepted: bool)
    ensures accepted == AcceptableGrant(grant)
  {
    if grant.fence <= 0 {
      return false;
    }
    var fixed := FixedContextSuffix(grant.messages);
    if fixed.Err? || |fixed.value| != |grant.messages|
       || grant.messages[|grant.messages| - 1].author != Author.Member {
      return false;
    }
    for index := 1 to |grant.messages|
      invariant forall i :: 1 <= i < index ==> grant.messages[i - 1].author != grant.messages[i].author
    {
      if grant.messages[index - 1].author == grant.messages[index].author {
        return false;
      }
    }
    return true;
  }

  // ----- Run claims -----

  /** A Run claim the Host is willing to execute. */
  predicate AcceptableClaim(claim: WorkRun.Claim) {
    && claim.fence > 0 && claim.last > 0
    && Normalize(claim.goal, MAX_GOAL) == Some(claim.goal)
    && (claim.understanding == [] <==> claim.nextStep == [])
    && (claim.understanding != [] ==>
          WorkRun.ValidateUpdate(claim.understanding, claim.nextStep)
            == Some(WorkRun.Understanding(claim.understanding, claim.nextStep)))
    && WorkRun.Bounded(claim.messages)
    && forall i :: 0 <= i < |claim.messages| ==> WorkRun.ValidMessageText(claim.messages[i].text)
  }

  lemma TextBytesUpTo(messages: seq<WorkRun.Input>, i: nat)
    requires i < |messages|
    ensures WorkRun.TextBytes(messages[..i + 1]) == WorkRun.TextBytes(messages[..i]) + |messages[i].text|
  {
    assert messages[..i + 1][..i] == messages[..i];
  }

  lemma {:induction false} TextBytesPrefix(messages: seq<WorkRun.Input>, i: nat)
    requires i <= |messages|
    ensures WorkRun.TextBytes(messages[..i]) <= WorkRun.TextBytes(messages)
    decreases |messages| - i
  {
    if i < |messages| {
      TextBytesUpTo(messages, i);
      TextBytesPrefix(messages, i + 1);
    } else {
      assert messages[..i] == messages;
    }
  }

  /** The gate in `Claim`: the running total is checked at every message. */
  method AcceptClaim(claim: WorkRun.Claim) returns (accepted: bool)
    ensures accepted == AcceptableClaim(claim)
  {
    hide WorkRun.ValidMessageText, WorkRun.TextBytes, Normalize, WorkRun.ValidateUpdate;
    if claim.fence <= 0 || claim.last <= 0 {
      return false;
    }
    if Normalize(claim.goal, MAX_GOAL) != Some(claim.goal) {
      return false;
    }
    if (claim.understanding == []) != (claim.nextStep == []) {
      return false;
    }
    if claim.understanding != [] {
      var update := WorkRun.ValidateUpdate(claim.understanding, claim.nextStep);
      if update != Some(WorkRun.Understanding(claim.understanding, claim.nextStep)) {
        return false;
      }
    }
    if |claim.messages| > WorkRun.MAX_INPUT_MESSAGES {
      return false;
    }
    var messageTextBytes := 0;
    NoText();
    assert claim.messages[..0] == [];
    for index := 0 to |claim.messages|
      invariant messageTextBytes == WorkRun.TextBytes(claim.messages[..index]) <= WorkRun.MAX_INPUT_TEXT
      invariant forall i :: 0 <= i < index ==> WorkRun.ValidMessageText(claim.messages[i].text)
    {
      var message := claim.messages[index];
      TextBytesUpTo(claim.messages, index);
      TextBytesPrefix(claim.messages, index + 1);
      messageTextBytes := messageTextBytes + |message.text|;
      if !WorkRun.ValidMessageText(message.text) || messageTextBytes > WorkRun.MAX_INPUT_TEXT {
        return false;
      }
    }
    assert claim.messages[..|claim.messages|] == claim.messages;
    return true;
  }

  lemma NoText()
    ensures WorkRun.TextBytes([]) == 0
  {}

  /** The gate of a reply claim, without the scan: a valid context within both limits, member last, authors in turn. */
  lemma GrantGateIff(grant: Grant)
    ensures AcceptableGrant(grant) <==>
      && grant.fence > 0 && AllValid(grant.messages)
      && 0 < |grant.messages| <= 32 && Context.TextBytes(grant.messages) <= 262_144
      && grant.messages[|grant.messages| - 1].author == Author.Member
      && forall i :: 1 <= i < |grant.messages| ==> grant.messages[i - 1].author != grant.messages[i].author
  {
    hide ValidMessage, FixedSuffix;
    var messages := grant.messages;
    RefusedIff(messages);
    if FixedSuffix(messages).Ok? && |FixedSuffix(messages).value| == |messages| {
      WholeIsValid(messages);
      LongestFittingSuffix(messages);
      assert Newest(messages, |messages|) == messages;
    }
    if AllValid(messages) && messages != [] {
      LongestFittingSuffix(messages);
      assert Newest(messages, |messages|) == messages;
    }
  }

  /** A scan that keeps everything has seen every message. */
  lemma WholeIsValid(messages: seq<ContextMessage>)
    requires FixedSuffix(messages).Ok? && |FixedSuffix(messages).value| == |messages|
    ensures AllValid(messages)
  {
    hide ValidMessage;
    KeptIsValid(messages, |messages|);
  }

  lemma {:induction false} KeptIsValid(messages: seq<ContextMessage>, start: nat)
    requires start <= |messages| && Scan(messages, start).Some? && AllValid(messages[start..])
    ensures AllValid(messages[Scan(messages, start).value..])
    decreases start
  {
    hide ValidMessage;
    if Scan(messages, start).value < start {
      assert messages[start - 1..] == [messages[start - 1]] + messages[start..];
      KeptIsValid(messages, start - 1);
    }
  }

  /** Admissible text with no white space at either end. */
  predicate Trimmed(text: Bytes, max: nat) {
    0 < |text| <= max && ValidUtf8(text) && 0 !in text && SpaceAtStart(text) == 0 && SpaceAtEnd(text) == 0
  }

  lemma TrimmedIff(text: Bytes, max: nat)
    ensures Normalize(text, max) == Some(text) <==> Trimmed(text, max)
  {
    hide ValidUtf8, TrimSpace, SpaceAtStart, SpaceAtEnd;
    TrimFixed(text);
    NormalizeIff(text, max);
  }

  /** The gate of a Run claim: trimmed texts, an understanding with its next step or neither, valid bounded messages. */
  lemma ClaimGateIff(claim: WorkRun.Claim)
    ensures AcceptableClaim(claim) <==>
      && claim.fence > 0 && claim.last > 0 && Trimmed(claim.goal, 2_000)
      && (claim.understanding == claim.nextStep == []
          || (Trimmed(claim.understanding, 61_440) && Trimmed(claim.nextStep, 8_192)))
      && |claim.messages| <= 32 && WorkRun.TextBytes(claim.messages) <= 262_144
      && forall i :: 0 <= i < |claim.messages| ==>
           var text := claim.messages[i].text;
           TrimSpace(text) != [] && |text| <= 61_440 && ValidUtf8(text) && 0 !in text
  {
    hide Normalize, Trimmed, TrimSpace, ValidUtf8;
    TrimmedIff(claim.goal, MAX_GOAL);
    TrimmedIff(claim.understanding, MAX_UNDERSTANDING);
    TrimmedIff(claim.nextStep, MAX_NEXT_STEP);
    NothingTrimmed();
  }

  lemma NothingTrimmed()
    ensures forall max {:trigger Trimmed([], max)} :: !Trimmed([], max)
  {}
}
