/** Exactly when a sign-in proof succeeds, whose it is, and what a refused one changes. */
module SignInOutcomes {
  import opened Wrappers
  import opened Ids
  import opened Text
  import opened SignIn
  import opened SignInInvariant
  import opened SignInTheorems

  // ----- Proofs -----

  /** An unrevoked, unexpired Session of this User. */
  predicate SessionOf(s: State, session: Id, user: Id, now: int) {
    && session in s.sessions && s.sessions[session].user == user
    && !s.sessions[session].revoked && now < s.sessions[session].expiresAt
  }

  /**
    What a proof of `key` is good for: anyone may log in; a confirmation needs the
    User's own key and live Session; a link needs a live, recently proved Session
    of a User without a method of that kind, and a key that nobody has.
   */
  predicate Acceptable(s: State, purpose: Purpose, key: Key, now: int) {
    match purpose
    case Login => true
    case Reauthenticate(user, initiating) =>
      key in s.owners && s.owners[key] == user && SessionOf(s, initiating, user, now)
    case Link(user, initiating) =>
      && SessionOf(s, initiating, user, now) && now < s.sessions[initiating].provedAt + 600_000_000
      && UserMethod(user, MethodOf(key)) !in s.methods && key !in s.owners
  }

  /** Whom an acceptable proof signs in. */
  function Prover(s: State, purpose: Purpose, key: Key, newUser: Id): Id {
    if key in s.owners then s.owners[key]
    else if purpose.Link? then purpose.target
    else newUser
  }

  /** Why a proof that is not acceptable is refused; `ownerFirst` looks at the key before the Session. */
  function Refusal(s: State, purpose: Purpose, key: Key, now: int, ownerFirst: bool): Error
    requires !purpose.Login?
  {
    var owned := key in s.owners && s.owners[key] == purpose.target;
    var live := SessionOf(s, purpose.initiating, purpose.target, now);
    if purpose.Reauthenticate? then
      if live then IdentityMethodNotLinked
      else if ownerFirst && !owned then IdentityMethodNotLinked
      else Unauthenticated
    else if !live then Unauthenticated
    else if s.sessions[purpose.initiating].provedAt + 600_000_000 <= now then RecentIdentityProofRequired
    else if UserMethod(purpose.target, MethodOf(key)) in s.methods then IdentityMethodAlreadyLinked
    else IdentityMethodOccupied
  }

  lemma LoginResolves(s: State, key: Key, newUser: Id)
    requires Identities(s) && newUser !in s.users
    ensures ResolveLogin(s, key, newUser).Ok?
    ensures ResolveLogin(s, key, newUser).value.user == if key in s.owners then s.owners[key] else newUser
  {
    assert UserMethod(newUser, MethodOf(key)) !in s.methods by { NoMethod(s, newUser, MethodOf(key)); }
  }

  lemma NoMethod(s: State, user: Id, kind: Method)
    requires Identities(s) && user !in s.users
    ensures UserMethod(user, kind) !in s.methods
  {}

  lemma OwnerHasKind(s: State, key: Key)
    requires Identities(s) && key in s.owners
    ensures UserMethod(s.owners[key], MethodOf(key)) in s.methods
  {}

  lemma SessionUser(s: State, session: Id)
    requires Identities(s) && session in s.sessions && !s.sessions[session].revoked
    ensures s.sessions[session].user in s.users
  {
    var row := s.sessions[session];
    assert UserMethod(row.user, row.proof) in s.methods;
    if row.user !in s.users { NoMethod(s, row.user, row.proof); }
  }

  /** Both resolutions accept the same proofs for the same User. */
  lemma ResolvesIff(s: State, purpose: Purpose, key: Key, newUser: Id, now: int)
    requires Identities(s) && newUser !in s.users
    ensures ResolveExternal(s, purpose, key, newUser, now).Ok? <==> Acceptable(s, purpose, key, now)
    ensures ResolveEmail(s, purpose, key, newUser, now).Ok? <==> Acceptable(s, purpose, key, now)
    ensures Acceptable(s, purpose, key, now) ==>
      && ResolveExternal(s, purpose, key, newUser, now).value.user == Prover(s, purpose, key, newUser)
      && ResolveEmail(s, purpose, key, newUser, now).value.user == Prover(s, purpose, key, newUser)
    ensures !Acceptable(s, purpose, key, now) ==>
      && ResolveExternal(s, purpose, key, newUser, now) == Err(Refusal(s, purpose, key, now, false))
      && ResolveEmail(s, purpose, key, newUser, now) == Err(Refusal(s, purpose, key, now, true))
  {
    hide Identities, LinkMethod, ResolveLogin;
    LoginResolves(s, key, newUser);
    if purpose.Link? && key in s.owners { OwnerHasKind(s, key); }
    if !purpose.Login? && purpose.initiating in s.sessions && !s.sessions[purpose.initiating].revoked {
      SessionUser(s, purpose.initiating);
    }
  }

  /** A proof whose Session was live when it was resolved can be finished. */
  lemma FinishSucceeds(s: State, t: State, purpose: Purpose, user: Id, kind: Method, session: Id, now: int)
    requires t.sessions == s.sessions && session !in s.sessions
    requires purpose.Reauthenticate? ==> SessionOf(s, purpose.initiating, purpose.target, now)
    ensures FinishProof(t, purpose, user, kind, session, now).Ok?
    ensures var u := FinishProof(t, purpose, user, kind, session, now).value;
      session in u.sessions && u.sessions[session].user == user && u.owners == t.owners
  {}

  /** A subject of Google's own issuer, or a positive GitHub user. */
  predicate ProvedKey(key: Key) {
    match key
    case GoogleKey(issuer, subject) => issuer == GOOGLE_ISSUER && TrimSpace(subject) != [] && |subject| <= 255
    case GitHubKey(user) => user > 0
    case EmailKey(_) => false
  }

  lemma ProvedKeyIff(key: Key)
    ensures ValidExternalKey(key) <==> ProvedKey(key)
  {
    hide TrimSpace;
  }

  /** A proved key for an exchanging, unexpired transaction of its provider, by its own callback. */
  predicate Exchanged(s: State, command: CompleteCommand, now: int) {
    && ProvedKey(command.key) && command.transaction in s.externals
    && var row := s.externals[command.transaction];
       && row.provider == MethodOf(command.key) && row.status == Exchanging
       && row.callback == command.callback && now < row.expiresAt
  }

  lemma CompleteRefused(s: State, command: CompleteCommand, newUser: Id, now: int)
    requires !Exchanged(s, command, now)
    ensures CompleteExternal(s, command, newUser, now).0 == s && CompleteExternal(s, command, newUser, now).1.Err?
  {
    hide ValidExternalKey, ProvedKey, ResolveExternal, FinishProof;
    ProvedKeyIff(command.key);
  }

  /** A request key that was used for another verification of the challenge is refused. */
  lemma VerifyConflicts(s: State, command: VerifyCommand, newUser: Id, now: int)
    requires TrimSpace(command.key) != [] && |command.key| <= 255 && command.challenge in s.challenges
    requires Addresses(command, s.challenges[command.challenge].purpose) && !(command.link && command.initiating.None?)
    requires AttemptKey(command.challenge, command.key) in s.attempts
    requires s.attempts[AttemptKey(command.challenge, command.key)].digest != command.digest
    ensures Verify(s, command, newUser, now) == (s, Err(IdempotencyConflict))
  {
    hide TrimSpace, Addresses, ResolveEmail, FinishProof;
  }

  /** A verification that is neither a replay nor answerable changes nothing. */
  lemma VerifyRefused(s: State, command: VerifyCommand, newUser: Id, now: int)
    requires AttemptKey(command.challenge, command.key) !in s.attempts && !Answerable(s, command, now)
    ensures Verify(s, command, newUser, now) == (s, Err(InvalidCode))
  {
    hide TrimSpace, ResolveEmail, FinishProof;
  }

  /**
    A completion succeeds exactly when it is exchanged and its proof acceptable. It
    signs in the key's owner if there is one, otherwise the linking or new User; a
    refused one changes nothing.
   */
  lemma CompleteIff(s: State, command: CompleteCommand, newUser: Id, now: int)
    requires Reachable(s) && newUser !in s.users && command.session !in s.sessions
    ensures var (t, r) := CompleteExternal(s, command, newUser, now);
      && (!Exchanged(s, command, now) ==> t == s && r.Err?)
      && (Exchanged(s, command, now) ==>
            var purpose := s.externals[command.transaction].purpose;
            && (r.Ok? <==> Acceptable(s, purpose, command.key, now))
            && (r.Err? ==> t == s && r == Err(Refusal(s, purpose, command.key, now, false)))
            && (r.Ok? ==>
                  && r.value == Prover(s, purpose, command.key, newUser)
                  && SessionOf(t, command.session, r.value, now)
                  && command.key in t.owners && t.owners[command.key] == r.value
                  && t.externals == s.externals[command.transaction :=
                       s.externals[command.transaction].(status := Succeeded, session := Some(command.session))]))
  {
    hide Reachable, Challenges, Identities, ValidExternalKey, ProvedKey, ResolveExternal, ResolveEmail, FinishProof,
      Acceptable, Refusal, Prover, SignedIn;
    ReachableInv(s);
    ProvedKeyIff(command.key);
    if !Exchanged(s, command, now) {
      CompleteRefused(s, command, newUser, now);
      return;
    }
    var purpose := s.externals[command.transaction].purpose;
    ResolvesIff(s, purpose, command.key, newUser, now);
    if Acceptable(s, purpose, command.key, now) {
      var proved := ResolveExternal(s, purpose, command.key, newUser, now).value;
      ResolveKeeps(s, purpose, command.key, newUser, now);
      AcceptableSession(s, purpose, command.key, now);
      FinishSucceeds(s, proved.rows, purpose, proved.user, MethodOf(command.key), command.session, now);
      FinishKeepsRows(proved.rows, purpose, proved.user, MethodOf(command.key), command.session, now);
      ExternalSignsIn(s, command, newUser, now);
      SignedInSession(s, CompleteExternal(s, command, newUser, now).0, purpose, command.key, command.session, now);
    }
  }

  lemma AcceptableSession(s: State, purpose: Purpose, key: Key, now: int)
    requires Acceptable(s, purpose, key, now)
    ensures purpose.Reauthenticate? ==> SessionOf(s, purpose.initiating, purpose.target, now)
  {}

  lemma SignedInSession(s: State, t: State, purpose: Purpose, key: Key, session: Id, now: int)
    requires SignedIn(s, t, purpose, key, session, now)
    ensures session in t.sessions && SessionOf(t, session, t.sessions[session].user, now)
    ensures key in t.owners && t.owners[key] == t.sessions[session].user
  {}

  /** A fresh verification of a usable challenge, addressed to its purpose. */
  predicate Answerable(s: State, command: VerifyCommand, now: int) {
    && TrimSpace(command.key) != [] && |command.key| <= 255 && AttemptKey(command.challenge, command.key) !in s.attempts
    && command.challenge in s.challenges
    && var challenge := s.challenges[command.challenge];
       && !challenge.invalidated && challenge.session == None && now < challenge.expiresAt
       && challenge.attempts < 5 && challenge.submission != SubmissionRejected
       && match challenge.purpose
          case Login => command.initiating.None? && !command.link
          case Reauthenticate(_, initiating) => command.initiating == Some(initiating) && !command.link
          case Link(_, initiating) => command.initiating == Some(initiating) && command.link
  }

  lemma AnswerableIsAddressed(s: State, command: VerifyCommand, now: int)
    requires Answerable(s, command, now)
    ensures Addresses(command, s.challenges[command.challenge].purpose) && !(command.link && command.initiating.None?)
    ensures ValidRequestKey(command.key) && Usable(s.challenges[command.challenge], now)
  {
    hide TrimSpace;
  }

  /**
    The right code succeeds exactly when the proof of its Email is acceptable, and
    signs in that Email's owner, or the linking or new User.
   */
  lemma RightCodeIff(s: State, command: VerifyCommand, newUser: Id, now: int)
    requires Reachable(s) && newUser !in s.users && command.session !in s.sessions
    requires Answerable(s, command, now) && s.challenges[command.challenge].code == command.code
    ensures var challenge := s.challenges[command.challenge];
      var key := EmailKey(challenge.email);
      var (t, r) := Verify(s, command, newUser, now);
      && (r.Ok? <==> Acceptable(s, challenge.purpose, key, now))
      && (r.Err? ==> t == s && r == Err(Refusal(s, challenge.purpose, key, now, true)))
      && (r.Ok? ==>
            && r.value == command.session
            && SessionOf(t, r.value, Prover(s, challenge.purpose, key, newUser), now)
            && AttemptKey(command.challenge, command.key) in t.attempts
            && t.attempts == s.attempts[AttemptKey(command.challenge, command.key) := Attempt(command.digest, true)])
  {
    hide Reachable, Challenges, Identities, ValidRequestKey, ResolveExternal, ResolveEmail, FinishProof, Acceptable, Refusal,
      Prover, Usable, Addresses;
    ReachableInv(s);
    AnswerableIsAddressed(s, command, now);
    var challenge := s.challenges[command.challenge];
    var key := EmailKey(challenge.email);
    ResolvesIff(s, challenge.purpose, key, newUser, now);
    if Acceptable(s, challenge.purpose, key, now) {
      var proved := ResolveEmail(s, challenge.purpose, key, newUser, now).value;
      ResolveKeeps(s, challenge.purpose, key, newUser, now);
      AcceptableSession(s, challenge.purpose, key, now);
      FinishSucceeds(s, proved.rows, challenge.purpose, proved.user, Email, command.session, now);
      FinishKeepsRows(proved.rows, challenge.purpose, proved.user, Email, command.session, now);
      hide Answerable;
      CodeSignsIn(s, command, newUser, now);
      SignedInSession(s, Verify(s, command, newUser, now).0, challenge.purpose, key, command.session, now);
    }
  }

  /** A wrong code of a usable challenge is refused, and spends exactly one of its attempts under its request key. */
  lemma WrongCodeSpends(s: State, command: VerifyCommand, newUser: Id, now: int)
    requires Answerable(s, command, now) && s.challenges[command.challenge].code != command.code
    ensures var (t, r) := Verify(s, command, newUser, now);
      var challenge := s.challenges[command.challenge];
      && r == Err(InvalidCode)
      && t == s.(challenges := t.challenges, attempts := t.attempts)
      && t.challenges == s.challenges[command.challenge := challenge.(attempts := challenge.attempts + 1)]
      && t.attempts == s.attempts[AttemptKey(command.challenge, command.key) := Attempt(command.digest, false)]
  {
    hide ValidRequestKey, Usable, ResolveEmail;
    AnswerableIsAddressed(s, command, now);
  }

  /**
    A fresh verification is decided by its challenge: refused if it is not
    answerable, spending one attempt if the code is wrong, and otherwise
    succeeding exactly when the proof of the Email is acceptable.
   */
  lemma VerifyIff(s: State, command: VerifyCommand, newUser: Id, now: int)
    requires Reachable(s) && newUser !in s.users && command.session !in s.sessions
    requires AttemptKey(command.challenge, command.key) !in s.attempts
    ensures var (t, r) := Verify(s, command, newUser, now);
      if !Answerable(s, command, now) then (t, r) == (s, Err(InvalidCode))
      else
        var challenge := s.challenges[command.challenge];
        var key := EmailKey(challenge.email);
        var request := AttemptKey(command.challenge, command.key);
        if challenge.code != command.code then
          && r == Err(InvalidCode)
          && t == s.(challenges := s.challenges[command.challenge := challenge.(attempts := challenge.attempts + 1)],
                     attempts := s.attempts[request := Attempt(command.digest, false)])
        else
          && (r.Ok? <==> Acceptable(s, challenge.purpose, key, now))
          && (r.Err? ==> t == s && r == Err(Refusal(s, challenge.purpose, key, now, true)))
          && (r.Ok? ==>
                && r.value == command.session
                && SessionOf(t, r.value, Prover(s, challenge.purpose, key, newUser), now)
                && t.attempts == s.attempts[request := Attempt(command.digest, true)])
  {
    hide Reachable, Verify, Answerable, Acceptable, Refusal, Prover, SessionOf;
    if !Answerable(s, command, now) {
      VerifyRefused(s, command, newUser, now);
    } else {
      AnswerableChallenge(s, command, now);
      if s.challenges[command.challenge].code == command.code {
        RightCodeIff(s, command, newUser, now);
      } else {
        WrongCodeSpends(s, command, newUser, now);
      }
    }
  }

  lemma AnswerableChallenge(s: State, command: VerifyCommand, now: int)
    requires Answerable(s, command, now)
    ensures command.challenge in s.challenges
  {
    hide TrimSpace;
  }

  // ----- Requests for a code -----

  /** Who may ask for a code: anyone for a login, otherwise the User from a live Session. */
  predicate MayAsk(s: State, purpose: Purpose, email: Bytes, now: int) {
    match purpose
    case Login => true
    case Reauthenticate(user, initiating) =>
      && SessionOf(s, initiating, user, now)
      && UserMethod(user, Email) in s.methods && s.methods[UserMethod(user, Email)] == EmailKey(email)
    case Link(user, initiating) =>
      SessionOf(s, initiating, user, now) && now < s.sessions[initiating].provedAt + 600_000_000
  }

  lemma MayAskIff(s: State, purpose: Purpose, email: Bytes, now: int)
    requires Identities(s)
    ensures ProofTargetRefused(s, purpose, email, now).None? <==> MayAsk(s, purpose, email, now)
  {
    hide Identities;
    if !purpose.Login? && purpose.initiating in s.sessions && !s.sessions[purpose.initiating].revoked {
      SessionUser(s, purpose.initiating);
    }
  }

  /** The challenges of an Email, or of a source, made after some time. */
  ghost function SentTo(challenges: map<Id, Challenge>, email: Bytes, time: int): set<Id> {
    set c | c in challenges && challenges[c].email == email && time < challenges[c].createdAt
  }

  ghost function SentFrom(challenges: map<Id, Challenge>, source: Bytes, time: int): set<Id> {
    set c | c in challenges && challenges[c].source == source && time < challenges[c].createdAt
  }

  lemma RecentIsSince(challenges: map<Id, Challenge>, email: Bytes, source: Bytes, now: int)
    ensures RecentForEmail(challenges, email, now) == SentTo(challenges, email, now - 3_600_000_000)
    ensures RecentForSource(challenges, source, now) == SentFrom(challenges, source, now - 3_600_000_000)
  {}

  /** A request key finds a challenge that exists. */
  ghost predicate Indexed(s: State) {
    forall k {:trigger k in s.byRequest} :: k in s.byRequest ==> s.byRequest[k] in s.challenges
  }

  lemma VerifyKeepsRequests(s: State, command: VerifyCommand, newUser: Id, now: int)
    ensures Verify(s, command, newUser, now).0.byRequest == s.byRequest
  {
    hide ResolveEmail, FinishProof, ValidRequestKey, LiveSession, Addresses, Usable;
    if Verify(s, command, newUser, now).1.Ok? && AttemptKey(command.challenge, command.key) !in s.attempts {
      var challenge := s.challenges[command.challenge];
      var proved := ResolveEmail(s, challenge.purpose, EmailKey(challenge.email), newUser, now).value;
      ResolveKeeps(s, challenge.purpose, EmailKey(challenge.email), newUser, now);
      FinishKeepsRows(proved.rows, challenge.purpose, proved.user, Email, command.session, now);
    }
  }

  lemma CompleteKeepsRequests(s: State, command: CompleteCommand, newUser: Id, now: int)
    ensures CompleteExternal(s, command, newUser, now).0.byRequest == s.byRequest
  {
    hide ResolveExternal, FinishProof, ValidExternalKey;
    if CompleteExternal(s, command, newUser, now).1.Ok? {
      var purpose := s.externals[command.transaction].purpose;
      var proved := ResolveExternal(s, purpose, command.key, newUser, now).value;
      ResolveKeeps(s, purpose, command.key, newUser, now);
      FinishKeepsRows(proved.rows, purpose, proved.user, MethodOf(command.key), command.session, now);
    }
  }

  lemma UnlinkKeepsRequests(s: State, command: UnlinkCommand, now: int)
    ensures UnlinkMethod(s, command, now).0.byRequest == s.byRequest
  {
    hide UnlinkRefused, ValidRequestKey, LiveSession, RevokeAll;
    assert forall t: State, user :: RevokeAll(t, user).byRequest == t.byRequest by { RevokeAllKeepsRequests(); }
  }

  lemma RevokeAllKeepsRequests()
    ensures forall t: State, user {:trigger RevokeAll(t, user)} :: RevokeAll(t, user).byRequest == t.byRequest
  {}

  lemma StepKeepsIndexed(s: State, op: Op)
    requires Indexed(s)
    ensures Indexed(Apply(s, op))
  {
    hide Verify, CompleteExternal, UnlinkMethod, SessionsKept, AttemptsKept, UnlinksKept, ProofTargetRefused, Invalidated,
      ValidRequestKey, RecentForEmail, RecentForSource, TooSoon, Issued;
    StepEvolves(s, op);
    match op
    case OpVerify(verify, verifiedUser, verifiedAt) => VerifyKeepsRequests(s, verify, verifiedUser, verifiedAt);
    case OpComplete(complete, newUser, completedAt) => CompleteKeepsRequests(s, complete, newUser, completedAt);
    case OpUnlink(unlink, unlinkedAt) => UnlinkKeepsRequests(s, unlink, unlinkedAt);
    case _ =>
  }

  lemma {:induction false} RunKeepsIndexed(s: State, ops: seq<Op>)
    requires Indexed(s)
    ensures Indexed(Run(s, ops))
    decreases |ops|
  {
    hide Apply, Indexed;
    if ops != [] {
      RunKeepsIndexed(s, ops[..|ops| - 1]);
      StepKeepsIndexed(Run(s, ops[..|ops| - 1]), ops[|ops| - 1]);
    }
  }

  lemma ReachableIndexed(s: State)
    requires Reachable(s)
    ensures Indexed(s)
  {
    hide Run;
    var ops :| s == Run(EMPTY, ops);
    RunKeepsIndexed(EMPTY, ops);
  }

  /**
    A request for a code succeeds exactly for somebody who may ask: a repeated
    request gets its first challenge back, if it asks for the same, and a fresh
    one is admitted within the limits.
   */
  lemma PrepareIff(s: State, command: PrepareCommand, now: int)
    requires Reachable(s) && command.challenge !in s.challenges
    ensures command.key in s.byRequest ==> s.byRequest[command.key] in s.challenges
    ensures Prepare(s, command, now).1.Ok? <==>
      && command.email != [] && TrimSpace(command.key) != [] && |command.key| <= 255
      && MayAsk(s, command.purpose, command.email, now)
      && (if command.key in s.byRequest
          then
            var first := s.challenges[s.byRequest[command.key]];
            first.email == command.email && first.digest == command.digest && first.payload == command.payload
          else
            && |SentTo(s.challenges, command.email, now - 3_600_000_000)| < 5
            && |SentFrom(s.challenges, command.source, now - 3_600_000_000)| < 20
            && forall c :: c in s.challenges && s.challenges[c].email == command.email ==>
                 s.challenges[c].createdAt + 60_000_000 <= now)
    ensures command.key in s.byRequest || Prepare(s, command, now).1.Err? ==> Prepare(s, command, now).0 == s
    ensures Prepare(s, command, now).1.Ok? ==>
      Prepare(s, command, now).1.value == if command.key in s.byRequest then s.byRequest[command.key] else command.challenge
    ensures Prepare(s, command, now).1.Ok? && command.key !in s.byRequest ==>
      var t := Prepare(s, command, now).0;
      && t.byRequest == s.byRequest[command.key := command.challenge]
      && command.challenge in t.challenges
      && t.challenges[command.challenge]
         == Challenge(command.email, command.code, command.source, command.payload, command.key, command.digest,
                      command.purpose, SubmissionPrepared, 0, now, now + 300_000_000, false, None)
  {
    hide Reachable, Identities, Challenges, TrimSpace, RecentForEmail, RecentForSource, ProofTargetRefused, MayAsk, Invalidated,
      SentTo, SentFrom;
    ReachableInv(s);
    ReachableIndexed(s);
    MayAskIff(s, command.purpose, command.email, now);
    RecentIsSince(s.challenges, command.email, command.source, now);
  }

  /**
    What became of sending a code is recorded until it is known to be accepted or
    rejected; that is final and answers every later report of the same payload.
   */
  lemma SubmissionIff(s: State, challenge: Id, payload: Bytes, submission: Submission)
    ensures var (t, r) := RecordSubmission(s, challenge, payload, submission);
      && (r.Ok? <==> submission != SubmissionPrepared && challenge in s.challenges && s.challenges[challenge].payload == payload)
      && (r.Ok? ==>
            var before := s.challenges[challenge].submission;
            var decided := before == SubmissionAccepted || before == SubmissionRejected;
            && r.value == (if decided then before else submission)
            && t == s.(challenges := s.challenges[challenge := s.challenges[challenge].(submission := r.value)]))
      && (r.Err? ==> t == s)
  {
    if RecordSubmission(s, challenge, payload, submission).1.Ok? {
      var row := s.challenges[challenge];
      assert row.(submission := row.submission) == row && s.challenges[challenge := row] == s.challenges;
    }
  }
}
