/** `Worker.Serve`: one Host process serving Work and private replies in turn. */
module Worker {
  import opened Wrappers

  datatype Kind = Conversation | Run

  function Other(kind: Kind): Kind {
    if kind.Conversation? then Run else Conversation
  }

  datatype Failure = StaleAuthority | ControlPlaneUnavailable | Fatal

  /** What one try meets: an empty queue, a failed claim, or an item whose execution may fail. */
  datatype Outcome = Nothing | ClaimFailed(failure: Failure) | Handled | HandledFailed(failure: Failure)

  /** An outcome, and whether the context had ended when the worker next looked or waited. */
  datatype Offer = Offer(outcome: Outcome, ended: bool)

  datatype Try = Try(kind: Kind, outcome: Outcome)

  predicate IsHandled(outcome: Outcome) {
    outcome.Handled? || outcome.HandledFailed?
  }

  function FailureOf(outcome: Outcome): Option<Failure> {
    match outcome
    case ClaimFailed(failure) => Some(failure)
    case HandledFailed(failure) => Some(failure)
    case _ => None
  }

  datatype Served = Served(tries: seq<Try>, fatal: bool)

  /** Whether the loop goes on after a pass that ended with this offer. */
  predicate GoesOn(last: Offer) {
    !last.ended && FailureOf(last.outcome) != Some(Fatal)
  }

  /** The pass returns an error, unless the context had already ended. */
  predicate Fails(last: Offer) {
    !last.ended && FailureOf(last.outcome) == Some(Fatal)
  }

  function Prepend(tries: seq<Try>, served: Served): Served {
    served.(tries := tries + served.tries)
  }

  /** What follows a pass that ended with `last`. */
  function After(prefer: Kind, last: Offer, script: seq<Offer>): Served
    decreases |script|, 1
  {
    if GoesOn(last) then Serving(prefer, script) else Served([], Fails(last))
  }

  /**
    The loop from a preference on; a context that ends is a script that runs out.
    A second try never changes the preference.
   */
  function Serving(prefer: Kind, script: seq<Offer>): Served
    decreases |script|, 0
  {
    if script == [] then Served([], false)
    else if script[0].outcome != Nothing then
      Prepend([Try(prefer, script[0].outcome)], After(Other(prefer), script[0], script[1..]))
    else if |script| == 1 then Served([Try(prefer, Nothing)], false)
    else
      Prepend([Try(prefer, Nothing), Try(Other(prefer), script[1].outcome)], After(prefer, script[1], script[2..]))
  }

  lemma PrependTwice(a: seq<Try>, b: seq<Try>, served: Served)
    ensures Prepend(a, Prepend(b, served)) == Prepend(a + b, served)
    ensures Prepend([], served) == served
    ensures Prepend(a, Served([], served.fatal)) == Served(a, served.fatal)
    ensures Prepend(a, Served(b, served.fatal)) == Served(a + b, served.fatal)
  {
    assert a + (b + served.tries) == (a + b) + served.tries;
  }

  lemma ServingStep(prefer: Kind, script: seq<Offer>)
    ensures script == [] ==> Serving(prefer, script) == Served([], false)
    ensures script != [] && script[0].outcome != Nothing ==>
      Serving(prefer, script) == Prepend([Try(prefer, script[0].outcome)], After(Other(prefer), script[0], script[1..]))
    ensures |script| == 1 && script[0].outcome == Nothing ==> Serving(prefer, script) == Served([Try(prefer, Nothing)], false)
    ensures |script| > 1 && script[0].outcome == Nothing ==>
      Serving(prefer, script) ==
        Prepend([Try(prefer, Nothing), Try(Other(prefer), script[1].outcome)], After(prefer, script[1], script[2..]))
  {}

  function Preferred(preferConversation: bool): Kind {
    if preferConversation then Conversation else Run
  }

  /** One pass: the preferred kind first, and the other one when the first had nothing. */
  method Pass(preferConversation: bool, first: Offer, second: Option<Offer>)
    returns (tries: seq<Try>, prefer: bool, last: Option<Offer>)
    ensures first.outcome != Nothing ==>
      tries == [Try(Preferred(preferConversation), first.outcome)] && prefer == !preferConversation && last == Some(first)
    ensures first.outcome == Nothing ==>
      && prefer == preferConversation && last == second
      && tries == [Try(Preferred(preferConversation), Nothing)]
           + if second.Some? then [Try(Other(Preferred(preferConversation)), second.value.outcome)] else []
  {
    prefer, last := preferConversation, Some(first);
    var handled := IsHandled(first.outcome);
    if prefer {
      tries := [Try(Conversation, first.outcome)];
      if handled || FailureOf(first.outcome).Some? {
        prefer := false;
      } else {
        last := second;
        if second.Some? {
          tries := tries + [Try(Run, second.value.outcome)];
          if IsHandled(second.value.outcome) {
            prefer := true;
          }
        }
      }
    } else {
      tries := [Try(Run, first.outcome)];
      if handled || FailureOf(first.outcome).Some? {
        prefer := true;
      } else {
        last := second;
        if second.Some? {
          tries := tries + [Try(Conversation, second.value.outcome)];
          if IsHandled(second.value.outcome) {
            prefer := false;
          }
        }
      }
    }
  }

  method Serve(script: seq<Offer>) returns (tries: seq<Try>, fatal: bool)
    ensures Served(tries, fatal) == Serving(Conversation, script)
  {
    hide Serving, Prepend;
    tries := [];
    var preferConversation := true;
    var next := 0;
    assert script[0..] == script;
    PrependTwice([], [], Serving(Conversation, script));
    while true
      invariant next <= |script|
      invariant Serving(Conversation, script) == Prepend(tries, Serving(Preferred(preferConversation), script[next..]))
      decreases |script| - next
    {
      ServingStep(Preferred(preferConversation), script[next..]);
      PrependTwice(tries, [], Served([], false));
      if next == |script| {
        return tries, false;
      }
      var second := if next + 1 < |script| then Some(script[next + 1]) else None;
      assert script[next..][1..] == script[next + 1..];
      assert second.Some? ==> script[next..][2..] == script[next + 2..];
      var first := script[next];
      var passed, prefer, last := Pass(preferConversation, first, second);
      PrependTwice(tries, passed, Served([], false));
      PrependTwice(tries, passed, Served([], true));
      ghost var before := tries;
      assert second.None? && first.outcome == Nothing ==> passed == [Try(Preferred(preferConversation), Nothing)];
      assert second.Some? && first.outcome == Nothing ==>
        passed == [Try(Preferred(preferConversation), Nothing), Try(Other(Preferred(preferConversation)), second.value.outcome)];
      tries, preferConversation := tries + passed, prefer;
      if last.None? {
        return tries, false;
      }
      next := if first.outcome == Nothing then next + 2 else next + 1;
      ghost var rest := After(Preferred(prefer), last.value, script[next..]);
      PrependTwice(before, passed, rest);
      PrependTwice(tries, [], rest);
      if FailureOf(last.value.outcome).Some? {
        if last.value.ended {
          return tries, false;
        }
        if FailureOf(last.value.outcome) == Some(Fatal) {
          return tries, true;
        }
        continue;
      }
      if last.value.ended {
        return tries, false;
      }
    }
  }

  // ----- Fairness -----

  ghost predicate Alternates(tries: seq<Try>) {
    forall i :: 0 <= i < |tries| - 1 ==> tries[i + 1].kind == Other(tries[i].kind)
  }

  /** In every trace, whatever is handled, empty or failing, the two kinds are tried strictly in turn. */
  lemma {:induction false} TriesAlternate(prefer: Kind, script: seq<Offer>)
    ensures var tries := Serving(prefer, script).tries;
      Alternates(tries) && (tries != [] ==> tries[0].kind == prefer)
    decreases |script|
  {
    if script == [] {
    } else if script[0].outcome != Nothing {
      if GoesOn(script[0]) { TriesAlternate(Other(prefer), script[1..]); }
    } else if |script| > 1 {
      if GoesOn(script[1]) { TriesAlternate(prefer, script[2..]); }
    }
  }

  /**
    Between two consecutive handled items of the same kind the other kind was
    tried, and offered nothing or failed to be claimed.
   */
  lemma OtherKindHadItsTurn(script: seq<Offer>, i: nat, j: nat)
    requires i < j < |Serving(Conversation, script).tries|
    requires var tries := Serving(Conversation, script).tries;
      && IsHandled(tries[i].outcome) && IsHandled(tries[j].outcome) && tries[i].kind == tries[j].kind
      && forall k :: i < k < j ==> !IsHandled(tries[k].outcome)
    ensures var tries := Serving(Conversation, script).tries;
      exists k :: i < k < j && tries[k].kind == Other(tries[i].kind)
                  && (tries[k].outcome == Nothing || tries[k].outcome.ClaimFailed?)
  {
    hide Serving;
    TriesAlternate(Conversation, script);
    var tries := Serving(Conversation, script).tries;
    assert tries[i + 1].kind == Other(tries[i].kind);
    assert i + 1 < j;
  }

  /** With both queues never empty and no claim failing, the handled kinds strictly alternate. */
  lemma BusyKindsAlternate(script: seq<Offer>, i: nat)
    requires forall k :: 0 <= k < |script| ==> IsHandled(script[k].outcome)
    requires i + 1 < |Serving(Conversation, script).tries|
    ensures var tries := Serving(Conversation, script).tries;
      && IsHandled(tries[i].outcome) && IsHandled(tries[i + 1].outcome)
      && tries[i + 1].kind == Other(tries[i].kind)
      && tries[i].kind == (if i % 2 == 0 then Conversation else Run)
  {
    hide Serving;
    TriesAlternate(Conversation, script);
    TriesAreOffers(Conversation, script);
    ParityOfKind(Serving(Conversation, script).tries, i);
  }

  lemma {:induction false} ParityOfKind(tries: seq<Try>, i: nat)
    requires Alternates(tries) && i < |tries|
    ensures tries[i].kind == (if i % 2 == 0 then tries[0].kind else Other(tries[0].kind))
  {
    if i > 0 {
      ParityOfKind(tries, i - 1);
      assert tries[i - 1 + 1].kind == Other(tries[i - 1].kind);
    }
  }

  /** Every try took the next offer: none is skipped and none is seen twice. */
  lemma {:induction false} TriesAreOffers(prefer: Kind, script: seq<Offer>)
    ensures var tries := Serving(prefer, script).tries;
      |tries| <= |script| && forall i :: 0 <= i < |tries| ==> tries[i].outcome == script[i].outcome
    decreases |script|
  {
    if script == [] {
    } else if script[0].outcome != Nothing {
      if GoesOn(script[0]) { TriesAreOffers(Other(prefer), script[1..]); }
    } else if |script| > 1 {
      if GoesOn(script[1]) { TriesAreOffers(prefer, script[2..]); }
    }
  }

  predicate IsFatal(outcome: Outcome) {
    outcome == ClaimFailed(Fatal) || outcome == HandledFailed(Fatal)
  }

  /**
    Only an ended context or a fatal failure stops the worker, and only the latter,
    while the context lasts, is returned: a stale or unavailable try is followed
    by the next one.
   */
  lemma {:induction false} OnlyFatalEnds(prefer: Kind, script: seq<Offer>)
    ensures var served := Serving(prefer, script);
      && |served.tries| <= |script|
      && (served.fatal <==> served.tries != [] && IsFatal(served.tries[|served.tries| - 1].outcome)
                            && !script[|served.tries| - 1].ended)
      && (|served.tries| < |script| ==>
            && served.tries != []
            && (script[|served.tries| - 1].ended || IsFatal(served.tries[|served.tries| - 1].outcome)))
      && (forall i :: 0 <= i < |served.tries| - 1 ==> !IsFatal(served.tries[i].outcome))
      && (forall i :: 0 <= i < |served.tries| - 1 && served.tries[i].outcome != Nothing ==> !script[i].ended)
    decreases |script|
  {
    if script == [] {
    } else if script[0].outcome != Nothing {
      if GoesOn(script[0]) { OnlyFatalEnds(Other(prefer), script[1..]); }
    } else if |script| > 1 {
      if GoesOn(script[1]) { OnlyFatalEnds(prefer, script[2..]); }
    }
  }
}
