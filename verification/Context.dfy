/** `FixedContextSuffix`: the bounded suffix of a Conversation that a reply is based on. */
module Context {
  import opened Wrappers
  import opened Text

  const MAX_CONTEXT_MESSAGES := 32
  const MAX_CONTEXT_TEXT := 256 * 1024

  datatype Author = Member | Carry | UnknownAuthor

  datatype ContextMessage = ContextMessage(author: Author, text: Bytes)

  datatype ContextError = InvalidContext

  predicate ValidMessage(m: ContextMessage) {
    !m.author.UnknownAuthor? && Admitted(m.text, MAX_MESSAGE_TEXT)
  }

  predicate AllValid(messages: seq<ContextMessage>) {
    forall i :: 0 <= i < |messages| ==> ValidMessage(messages[i])
  }

  function TextBytes(messages: seq<ContextMessage>): nat {
    if messages == [] then 0 else |messages[0].text| + TextBytes(messages[1..])
  }

  /** A context within both fixed limits. */
  predicate Fits(messages: seq<ContextMessage>) {
    |messages| <= MAX_CONTEXT_MESSAGES && TextBytes(messages) <= MAX_CONTEXT_TEXT
  }

  /** The newest `n` messages. */
  function Newest(messages: seq<ContextMessage>, n: nat): seq<ContextMessage>
    requires n <= |messages|
  {
    messages[|messages| - n..]
  }

  /** The scan from the newest message backwards, `start` being the oldest one kept so far. */
  function Scan(messages: seq<ContextMessage>, start: nat): (kept: Option<nat>)
    requires start <= |messages|
    ensures kept.Some? ==> kept.value <= start
    decreases start
  {
    if start == 0 || |messages| - start >= MAX_CONTEXT_MESSAGES then Some(start)
    else if !ValidMessage(messages[start - 1]) then None
    else if TextBytes(messages[start - 1..]) > MAX_CONTEXT_TEXT then Some(start)
    else Scan(messages, start - 1)
  }

  function FixedSuffix(messages: seq<ContextMessage>): (r: Result<seq<ContextMessage>, ContextError>)
    ensures r.Ok? ==> 0 < |r.value| <= |messages|
  {
    match Scan(messages, |messages|)
    case None => Err(InvalidContext)
    case Some(start) => if start == |messages| then Err(InvalidContext) else Ok(messages[start..])
  }

  /** The source's loop, with its running total and its early exits. */
  method FixedContextSuffix(messages: seq<ContextMessage>)
    returns (r: Result<seq<ContextMessage>, ContextError>)
    ensures r == FixedSuffix(messages)
  {
    if |messages| == 0 {
      return Err(InvalidContext);
    }
    var start := |messages|;
    var textBytes := 0;
    while start > 0 && |messages| - start < MAX_CONTEXT_MESSAGES
      invariant 0 <= start <= |messages|
      invariant textBytes == TextBytes(messages[start..])
      invariant Scan(messages, start) == Scan(messages, |messages|)
      decreases start
    {
      var message := messages[start - 1];
      assert messages[start - 1..][1..] == messages[start..];
      if !ValidMessage(message) {
        return Err(InvalidContext);
      }
      if textBytes + |message.text| > MAX_CONTEXT_TEXT {
        break;
      }
      textBytes := textBytes + |message.text|;
      start := start - 1;
    }
    if start == |messages| {
      return Err(InvalidContext);
    }
    r := Ok(messages[start..]);
  }

  lemma TextBytesCons(messages: seq<ContextMessage>, i: nat)
    requires i < |messages|
    ensures TextBytes(messages[i..]) == |messages[i].text| + TextBytes(messages[i + 1..])
  {
    assert messages[i..][1..] == messages[i + 1..];
  }

  lemma {:induction false} TextBytesMonotone(messages: seq<ContextMessage>, i: nat, j: nat)
    requires i <= j <= |messages|
    ensures TextBytes(messages[j..]) <= TextBytes(messages[i..])
    decreases j - i
  {
    if i < j {
      TextBytesCons(messages, i);
      TextBytesMonotone(messages, i + 1, j);
    }
  }

  /** Valid messages are at most 16 KiB each, so a short context cannot be too large. */
  lemma {:induction false} TextBytesBound(messages: seq<ContextMessage>)
    requires AllValid(messages)
    ensures TextBytes(messages) <= MAX_MESSAGE_TEXT * |messages|
    decreases |messages|
  {
    if messages != [] {
      TextBytesBound(messages[1..]);
    }
  }

  /** On valid messages the scan stops exactly where the next larger suffix stops fitting. */
  lemma {:induction false} ScanMaximal(messages: seq<ContextMessage>, start: nat)
    requires AllValid(messages) && start <= |messages| && Fits(messages[start..])
    ensures Scan(messages, start).Some?
    ensures var kept := Scan(messages, start).value;
      kept <= start && Fits(messages[kept..]) && (kept > 0 ==> !Fits(messages[kept - 1..]))
    decreases start
  {
    if start == 0 || |messages| - start >= MAX_CONTEXT_MESSAGES {
    } else if TextBytes(messages[start - 1..]) > MAX_CONTEXT_TEXT {
    } else {
      ScanMaximal(messages, start - 1);
    }
  }

  /** One valid message always fits. */
  lemma NewestFits(messages: seq<ContextMessage>)
    requires AllValid(messages) && messages != []
    ensures Fits(messages[|messages| - 1..])
  {
    TextBytesBound(messages[|messages| - 1..]);
  }

  lemma FitsUpTo(messages: seq<ContextMessage>, kept: nat, n: nat)
    requires kept <= |messages| && n <= |messages|
    requires Fits(messages[kept..]) && (kept > 0 ==> !Fits(messages[kept - 1..]))
    ensures Fits(Newest(messages, n)) <==> n <= |messages| - kept
  {
    if n <= |messages| - kept {
      TextBytesMonotone(messages, kept, |messages| - n);
    } else {
      TextBytesMonotone(messages, |messages| - n, kept - 1);
    }
  }

  /**
    The longest suffix within both limits: a suffix of valid messages fits
    exactly when it is no longer than the one returned.
   */
  lemma LongestFittingSuffix(messages: seq<ContextMessage>)
    requires AllValid(messages) && messages != []
    ensures FixedSuffix(messages).Ok?
    ensures var fixed := FixedSuffix(messages).value;
      && 0 < |fixed| <= |messages| && fixed == Newest(messages, |fixed|)
      && forall n: nat | n <= |messages| :: (n <= 32 && TextBytes(Newest(messages, n)) <= 262_144) <==> n <= |fixed|
  {
    var size := |messages|;
    assert TextBytes(messages[size..]) == 0;
    ScanMaximal(messages, size);
    var kept := Scan(messages, size).value;
    NewestFits(messages);
    assert kept < size;
    forall n: nat | n <= size
      ensures Fits(Newest(messages, n)) <==> n <= size - kept
    {
      FitsUpTo(messages, kept, n);
    }
  }

  /** A returned context is returned unchanged when it is checked again. */
  lemma FixedSuffixIdempotent(messages: seq<ContextMessage>)
    requires AllValid(messages) && messages != []
    ensures FixedSuffix(messages).Ok?
    ensures FixedSuffix(FixedSuffix(messages).value) == FixedSuffix(messages)
  {
    LongestFittingSuffix(messages);
    var fixed := FixedSuffix(messages).value;
    LongestFittingSuffix(fixed);
    assert Newest(fixed, |fixed|) == fixed;
  }

  /** The text limit never cuts below sixteen messages. */
  lemma KeepsSixteen(messages: seq<ContextMessage>)
    requires AllValid(messages) && messages != []
    ensures FixedSuffix(messages).Ok?
    ensures |FixedSuffix(messages).value| >= if |messages| < 16 then |messages| else 16
  {
    hide ValidMessage, FixedSuffix, TextBytes;
    LongestFittingSuffix(messages);
    var n := if |messages| < 16 then |messages| else 16;
    TextBytesBound(Newest(messages, n));
    assert Fits(Newest(messages, n));
  }

  /** The candidate query's last 32 rows decide the same context as the whole log. */
  lemma LastRowsSuffice(messages: seq<ContextMessage>, rows: seq<ContextMessage>)
    requires AllValid(messages) && messages != []
    requires rows == Newest(messages, if |messages| > 32 then 32 else |messages|)
    ensures FixedSuffix(rows) == FixedSuffix(messages)
  {
    LongestFittingSuffix(messages);
    LongestFittingSuffix(rows);
    var whole, part := FixedSuffix(messages).value, FixedSuffix(rows).value;
    assert Fits(whole) && Fits(part);
    assert Newest(messages, |whole|) == Newest(rows, |whole|);
    assert Newest(rows, |part|) == Newest(messages, |part|);
  }

  /** Message `i` is invalid, and the scan reaches it: everything after it is valid, with room for one more. */
  ghost predicate Blocks(messages: seq<ContextMessage>, i: int) {
    && 0 <= i < |messages| && !ValidMessage(messages[i])
    && AllValid(messages[i + 1..]) && |messages| - i <= 32 && TextBytes(messages[i + 1..]) <= 262_144
  }

  lemma TailValid(messages: seq<ContextMessage>, start: nat, i: nat)
    requires start <= i < |messages| && AllValid(messages[start..])
    ensures ValidMessage(messages[i])
  {
    hide ValidMessage;
    assert messages[start..][i - start] == messages[i];
  }

  lemma BlocksBefore(messages: seq<ContextMessage>, start: nat, i: int)
    requires start <= |messages| && AllValid(messages[start..]) && Blocks(messages, i)
    ensures i < start && TextBytes(messages[start..]) <= 262_144 && |messages| - start < 32
  {
    hide ValidMessage;
    if i >= start { TailValid(messages, start, i); }
    if i < start { TextBytesMonotone(messages, i + 1, start); }
  }

  lemma {:induction false} ScanRefuses(messages: seq<ContextMessage>, start: nat)
    requires start <= |messages| && AllValid(messages[start..]) && Fits(messages[start..])
    ensures Scan(messages, start).None? <==> exists i :: Blocks(messages, i)
    decreases start
  {
    hide ValidMessage, Blocks;
    forall i | Blocks(messages, i) ensures 0 <= i < start && |messages| - start < 32 {
      BlocksBefore(messages, start, i);
      BlocksWithin(messages, i);
    }
    if start > 0 && |messages| - start < MAX_CONTEXT_MESSAGES {
      if !ValidMessage(messages[start - 1]) {
        StartBlocks(messages, start);
      } else {
        assert messages[start - 1..] == [messages[start - 1]] + messages[start..];
        forall i | Blocks(messages, i) ensures TextBytes(messages[start - 1..]) <= MAX_CONTEXT_TEXT {
          BlocksBefore(messages, start - 1, i);
        }
        if TextBytes(messages[start - 1..]) <= MAX_CONTEXT_TEXT { ScanRefuses(messages, start - 1); }
      }
    }
  }

  lemma BlocksWithin(messages: seq<ContextMessage>, i: int)
    requires Blocks(messages, i)
    ensures 0 <= i < |messages|
  {}

  lemma StartBlocks(messages: seq<ContextMessage>, start: nat)
    requires 0 < start <= |messages| && |messages| - start < 32 && TextBytes(messages[start..]) <= 262_144
    requires AllValid(messages[start..]) && !ValidMessage(messages[start - 1])
    ensures Blocks(messages, start - 1)
  {
    hide ValidMessage;
  }

  /** A context is refused exactly when it is empty or an invalid message lies within what the scan reads. */
  lemma RefusedIff(messages: seq<ContextMessage>)
    ensures FixedSuffix(messages).Err? <==> messages == [] || exists i :: Blocks(messages, i)
    ensures FixedSuffix(messages).Ok? ==>
      FixedSuffix(messages).value == messages[|messages| - |FixedSuffix(messages).value|..]
  {
    hide ValidMessage;
    var size := |messages|;
    assert messages[size..] == [];
    ScanRefuses(messages, size);
    if messages != [] && Scan(messages, size).Some? { ScanTakesOne(messages); }
  }

  lemma ScanTakesOne(messages: seq<ContextMessage>)
    requires messages != [] && Scan(messages, |messages|).Some?
    ensures Scan(messages, |messages|).value < |messages|
  {
    TextBytesCons(messages, |messages| - 1);
    assert messages[|messages|..] == [];
  }
}
