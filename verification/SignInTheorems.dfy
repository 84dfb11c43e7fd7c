/** The guarantees of sign-in methods and email challenges, over every run. */
module SignInTheorems {
  import opened Wrappers
  import opened Ids
  import opened Text
  import opened SignIn
  import opened SignInInvariant

  ghost predicate Reachable(s: State) {
    exists ops :: s == Run(EMPTY, ops)
  }

  lemma ReachableInv(s: State)
    requires Reachable(s)
    ensures Inv(s)
  {
    hide Inv, Run;
    EmptyInv();
    var ops :| s == Run(EMPTY, ops);
    RunKeepsInv(EMPTY, ops);
  }

  /** The reachable states are closed under every transaction, and start empty. */
  lemma StepsAreReachable(s: State, op: Op)
    ensures Reachable(EMPTY) && (Reachable(s) ==> Reachable(Apply(s, op)))
  {
    hide Apply;
    assert EMPTY == Run(EMPTY, []);
    if Reachable(s) {
      var ops :| s == Run(EMPTY, ops);
      assert (ops + [op])[..|ops|] == ops;
      assert Apply(s, op) == Run(EMPTY, ops + [op]);
    }
  }

  // ----- Methods -----

  /** Every unrevoked Session was proved with a method that its User still has, and that only this User has. */
  lemma SessionsStayProved(s: State, session: Id)
    requires Reachable(s) && session in s.sessions && !s.sessions[session].revoked
    ensures var row := s.sessions[session];
      && row.user in s.users && Linked(s, row.user, row.proof)
      && s.methods[UserMethod(row.user, row.proof)] in s.owners
      && s.owners[s.methods[UserMethod(row.user, row.proof)]] == row.user
  {
    hide Reachable, Challenges;
    ReachableInv(s);
    assert UserMethod(s.sessions[session].user, s.sessions[session].proof) in s.methods;
  }

  /** Every User keeps a way in, and a key's owner has it as their only key of that kind. */
  lemma UsersKeepAMethod(s: State, user: Id, key: Key)
    requires Reachable(s)
    ensures user in s.users ==> MethodCount(s, user) >= 1
    ensures key in s.owners ==>
      && s.owners[key] in s.users
      && Linked(s, s.owners[key], MethodOf(key)) && s.methods[UserMethod(s.owners[key], MethodOf(key))] == key
  {
    hide Reachable, Challenges;
    ReachableInv(s);
    if user in s.users {
      assert HasMethod(s.methods, user);
      var kind :| UserMethod(user, kind) in s.methods;
    }
  }

  /**
    Unlinking succeeds exactly when the Session is live and recently proved, the
    method is the User's own, and it is not the one that proves the Session. No
    other method has to be counted: the proof itself is one that remains.
   */
  lemma UnlinkIff(s: State, command: UnlinkCommand, now: int)
    requires Reachable(s)
    requires UnlinkKey(command.session, command.key) !in s.unlinks && command.replacement !in s.sessions
    ensures UnlinkMethod(s, command, now).1.Ok? <==>
      && TrimSpace(command.key) != [] && |command.key| <= 255
      && command.session in s.sessions
      && var session := s.sessions[command.session];
         && !session.revoked && now < session.expiresAt && now < session.provedAt + 600_000_000
         && session.proof != command.kind
         && UserMethod(session.user, command.kind) in s.methods
         && command.observed == Some(s.methods[UserMethod(session.user, command.kind)])
    ensures UnlinkMethod(s, command, now).1.Err? ==> UnlinkMethod(s, command, now).0 == s
  {
    hide Reachable, Challenges, TrimSpace, Unlinked, Identities;
    ReachableInv(s);
    if command.session in s.sessions {
      UnlinkGuards(s, command, now);
    }
  }

  lemma UnlinkGuards(s: State, command: UnlinkCommand, now: int)
    requires Identities(s) && command.session in s.sessions && command.replacement !in s.sessions
    ensures var session := s.sessions[command.session];
      UnlinkRefused(s, command, session.user, now).None? <==>
        && LiveSession(s, command.session, now)
        && now < session.provedAt + PROOF_LIFETIME && session.proof != command.kind
        && Linked(s, session.user, command.kind)
        && command.observed == Some(s.methods[UserMethod(session.user, command.kind)])
  {
    var session := s.sessions[command.session];
    if !session.revoked {
      assert UserMethod(session.user, session.proof) in s.methods;
      if session.proof != command.kind && Linked(s, session.user, command.kind) {
        TwoMethods(s, session.user, session.proof, command.kind);
      }
    }
  }

  lemma TwoMethods(s: State, user: Id, a: Method, b: Method)
    requires a != b && Linked(s, user, a) && Linked(s, user, b)
    ensures MethodCount(s, user) >= 2
  {}

  /** The last-method guard fires only for the method that proves the Session itself. */
  lemma LastMethodIsTheProof(s: State, command: UnlinkCommand, user: Id, now: int)
    requires Reachable(s) && UnlinkRefused(s, command, user, now) == Some(LastIdentityMethod)
    ensures command.session in s.sessions && s.sessions[command.session].proof == command.kind
  {
    hide Reachable, Challenges;
    ReachableInv(s);
    if s.sessions[command.session].proof != command.kind {
      assert UserMethod(s.sessions[command.session].user, s.sessions[command.session].proof) in s.methods;
      TwoMethods(s, user, s.sessions[command.session].proof, command.kind);
    }
  }

  /** After an unlink the replacement is the User's only live Session, and another User's are untouched. */
  lemma UnlinkLeavesOneSession(s: State, command: UnlinkCommand, now: int, other: Id)
    requires Reachable(s) && UnlinkMethod(s, command, now).1.Ok?
    requires UnlinkKey(command.session, command.key) !in s.unlinks
    ensures command.session in s.sessions
    ensures var t := UnlinkMethod(s, command, now).0;
      var user := s.sessions[command.session].user;
      && MethodCount(t, user) == MethodCount(s, user) - 1 >= 1
      && UserMethod(user, command.kind) in s.methods && t.users == s.users
      && t.methods == s.methods - {UserMethod(user, command.kind)}
      && t.owners == s.owners - {s.methods[UserMethod(user, command.kind)]}
      && command.replacement in t.sessions
      && t.sessions[command.replacement]
         == Session(user, s.sessions[command.session].proof, now, now + 2_592_000_000_000, false)
      && (other in t.sessions && !t.sessions[other].revoked && t.sessions[other].user == user ==>
            other == command.replacement)
      && (other in s.sessions && s.sessions[other].user != user ==>
            other in t.sessions && t.sessions[other] == s.sessions[other])
  {
    hide Reachable, Challenges, ValidRequestKey, Inv;
    ReachableInv(s);
  }

  /** What a successful proof of `key` leaves behind, for its purpose. */
  ghost predicate SignedIn(s: State, t: State, purpose: Purpose, key: Key, session: Id, now: int) {
    && session !in s.sessions && session in t.sessions
    && var row := t.sessions[session];
       && !row.revoked && now < row.expiresAt && row.proof == MethodOf(key)
       && row.provedAt == now && row.expiresAt == now + 2_592_000_000_000
       && key in t.owners && t.owners[key] == row.user
       && (key in s.owners ==> s.owners[key] == row.user && t.owners == s.owners)
       && (forall other :: other in s.sessions ==> other in t.sessions)
       && (purpose.Login? ==> forall other :: other in s.sessions ==> t.sessions[other] == s.sessions[other])
       && (!purpose.Login? ==>
             (row.user == purpose.target && purpose.initiating in t.sessions && t.sessions[purpose.initiating].revoked))
       && (purpose.Link? ==> key !in s.owners)
       && (purpose.Link? ==>
             forall other :: other in s.sessions && s.sessions[other].user == row.user ==> t.sessions[other].revoked)
  }

  lemma FinishSignsIn(s: State, proved: Proved, purpose: Purpose, key: Key, session: Id, now: int)
    requires ProvedBy(s, proved, key) && FinishProof(proved.rows, purpose, proved.user, MethodOf(key), session, now).Ok?
    requires key in s.owners ==> s.owners[key] == proved.user && proved.rows.owners == s.owners
    requires !purpose.Login? ==> proved.user == purpose.target
    requires purpose.Link? ==>
      key !in s.owners && purpose.initiating in s.sessions && s.sessions[purpose.initiating].user == proved.user
    ensures SignedIn(s, FinishProof(proved.rows, purpose, proved.user, MethodOf(key), session, now).value, purpose, key,
                     session, now)
  {
    hide Identities;
  }

  lemma ExternalFacts(s: State, purpose: Purpose, key: Key, newUser: Id, now: int)
    requires ResolveExternal(s, purpose, key, newUser, now).Ok?
    ensures var proved := ResolveExternal(s, purpose, key, newUser, now).value;
      && (key in s.owners ==> s.owners[key] == proved.user && proved.rows.owners == s.owners)
      && (!purpose.Login? ==> proved.user == purpose.target)
      && (purpose.Link? ==>
            key !in s.owners && purpose.initiating in s.sessions && s.sessions[purpose.initiating].user == proved.user)
  {}

  lemma EmailFacts(s: State, purpose: Purpose, key: Key, newUser: Id, now: int)
    requires ResolveEmail(s, purpose, key, newUser, now).Ok?
    ensures var proved := ResolveEmail(s, purpose, key, newUser, now).value;
      && (key in s.owners ==> s.owners[key] == proved.user && proved.rows.owners == s.owners)
      && (!purpose.Login? ==> proved.user == purpose.target)
      && (purpose.Link? ==>
            key !in s.owners && purpose.initiating in s.sessions && s.sessions[purpose.initiating].user == proved.user)
  {}

  /**
    A completed external proof signs in the one User the key belongs to. A
    confirmation replaces exactly the Session it was started from; a link adds a
    key nobody had and ends every earlier Session of its User.
   */
  lemma ExternalSignsIn(s: State, command: CompleteCommand, newUser: Id, now: int)
    requires Reachable(s) && CompleteExternal(s, command, newUser, now).1.Ok?
    ensures command.transaction in s.externals
    ensures SignedIn(s, CompleteExternal(s, command, newUser, now).0, s.externals[command.transaction].purpose, command.key,
                     command.session, now)
  {
    hide Reachable, Challenges, Identities, ValidExternalKey, ResolveExternal, FinishProof, ProvedBy, SignedIn;
    ReachableInv(s);
    var purpose := s.externals[command.transaction].purpose;
    ExternalProves(s, purpose, command.key, newUser, now);
    ExternalFacts(s, purpose, command.key, newUser, now);
    var proved := ResolveExternal(s, purpose, command.key, newUser, now).value;
    FinishSignsIn(s, proved, purpose, command.key, command.session, now);
    SignedInSame(s, FinishProof(proved.rows, purpose, proved.user, MethodOf(command.key), command.session, now).value,
                 CompleteExternal(s, command, newUser, now).0, purpose, command.key, command.session, now);
  }

  lemma SignedInSame(s: State, t: State, u: State, purpose: Purpose, key: Key, session: Id, now: int)
    requires SignedIn(s, t, purpose, key, session, now) && u.sessions == t.sessions && u.owners == t.owners
    ensures SignedIn(s, u, purpose, key, session, now)
  {}

  /** The right code does the same for its challenge's Email, and consumes the challenge. */
  lemma CodeSignsIn(s: State, command: VerifyCommand, newUser: Id, now: int)
    requires Reachable(s) && AttemptKey(command.challenge, command.key) !in s.attempts
    requires Verify(s, command, newUser, now).1.Ok?
    ensures command.challenge in s.challenges
    ensures var challenge := s.challenges[command.challenge];
      var t := Verify(s, command, newUser, now).0;
      && challenge.code == command.code && Usable(challenge, now) && Addresses(command, challenge.purpose)
      && Verify(s, command, newUser, now).1.value == command.session
      && SignedIn(s, t, challenge.purpose, EmailKey(challenge.email), command.session, now)
      && t.challenges == s.challenges[command.challenge := challenge.(session := Some(command.session))]
  {
    hide Reachable, Challenges, Identities, ValidRequestKey, ResolveEmail, FinishProof, ProvedBy, SignedIn, Usable, Addresses,
      LiveSession;
    ReachableInv(s);
    var challenge := s.challenges[command.challenge];
    var key := EmailKey(challenge.email);
    EmailProves(s, challenge.purpose, key, newUser, now);
    EmailFacts(s, challenge.purpose, key, newUser, now);
    var proved := ResolveEmail(s, challenge.purpose, key, newUser, now).value;
    FinishSignsIn(s, proved, challenge.purpose, key, command.session, now);
    ResolveKeeps(s, challenge.purpose, key, newUser, now);
    FinishKeepsRows(proved.rows, challenge.purpose, proved.user, Email, command.session, now);
    SignedInSame(s, FinishProof(proved.rows, challenge.purpose, proved.user, Email, command.session, now).value,
                 Verify(s, command, newUser, now).0, challenge.purpose, key, command.session, now);
  }

  // ----- Limits -----

  /**
    In every window of an hour, wherever it starts, an Email gets at most five
    challenges and a source at most twenty, with no assumption that the clock is
    monotone; two challenges for an Email are at least a minute apart.
   */
  lemma ChallengesAreLimited(s: State, email: Bytes, source: Bytes, start: int, a: Id, b: Id)
    requires Reachable(s)
    ensures |EmailWindow(s.challenges, email, start)| <= 5
    ensures |SourceWindow(s.challenges, source, start)| <= 20
    ensures a in s.challenges && b in s.challenges && a != b && s.challenges[a].email == s.challenges[b].email ==>
      || s.challenges[a].createdAt + RESEND_DELAY <= s.challenges[b].createdAt
      || s.challenges[b].createdAt + RESEND_DELAY <= s.challenges[a].createdAt
  {
    hide Reachable, Identities, AttemptsCounted, OneCurrent, EmailWindow, SourceWindow;
    ReachableInv(s);
    if a in s.challenges && b in s.challenges && a != b {
      assert Apart(s.challenges[a], s.challenges[b]);
    }
  }

  /** At most one challenge per Email can be used. */
  lemma OneUsableChallenge(s: State, a: Id, b: Id, now: int, later: int)
    requires Reachable(s) && a in s.challenges && b in s.challenges
    requires Usable(s.challenges[a], now) && Usable(s.challenges[b], later) && s.challenges[a].email == s.challenges[b].email
    ensures a == b
  {
    hide Reachable, Identities, AttemptsCounted, EmailLimited, SourceLimited, Spaced;
    ReachableInv(s);
    assert Current(s.challenges[a]) && Current(s.challenges[b]);
  }

  /** A challenge spends at most five attempts, each on a wrong request of its own. */
  lemma AttemptsAreLimited(s: State, challenge: Id)
    requires Reachable(s) && challenge in s.challenges
    ensures |WrongAttempts(s.attempts, challenge)| == s.challenges[challenge].attempts <= 5
  {
    hide Reachable, Identities, EmailLimited, SourceLimited, Spaced, OneCurrent;
    ReachableInv(s);
  }

  // ----- What rows never take back -----

  /** A challenge that was superseded, or whose attempts ran out, before it was used. */
  predicate Dead(challenge: Challenge) {
    challenge.session.None? && (challenge.invalidated || challenge.attempts >= ATTEMPT_LIMIT)
  }

  /** A challenge keeps its purpose and, once consumed, its Session; a dead one stays dead. */
  ghost predicate ChallengesKept(challenges: map<Id, Challenge>, later: map<Id, Challenge>) {
    forall c {:trigger c in challenges} :: c in challenges ==>
      && c in later && later[c].purpose == challenges[c].purpose
      && (challenges[c].session.Some? ==> later[c].session == challenges[c].session)
      && (Dead(challenges[c]) ==> Dead(later[c]))
  }

  /** A Session keeps everything but that it may be revoked, for good. */
  ghost predicate SessionsKept(sessions: map<Id, Session>, later: map<Id, Session>) {
    forall id {:trigger id in sessions} :: id in sessions ==>
      && id in later && later[id].(revoked := sessions[id].revoked) == sessions[id]
      && (sessions[id].revoked ==> later[id].revoked)
  }

  ghost predicate AttemptsKept(attempts: map<AttemptKey, Attempt>, later: map<AttemptKey, Attempt>) {
    forall k {:trigger k in attempts} :: k in attempts ==> k in later && later[k] == attempts[k]
  }

  ghost predicate UnlinksKept(unlinks: map<UnlinkKey, Unlink>, later: map<UnlinkKey, Unlink>) {
    forall k {:trigger k in unlinks} :: k in unlinks ==> k in later && later[k] == unlinks[k]
  }

  ghost predicate Evolves(s: State, t: State) {
    && ChallengesKept(s.challenges, t.challenges) && SessionsKept(s.sessions, t.sessions)
    && AttemptsKept(s.attempts, t.attempts) && UnlinksKept(s.unlinks, t.unlinks)
  }

  lemma EvolvesReflexive(s: State)
    ensures Evolves(s, s)
  {}

  lemma EvolvesTransitive(s: State, t: State, u: State)
    requires Evolves(s, t) && Evolves(t, u)
    ensures Evolves(s, u)
  {}

  lemma OneChallenge(challenges: map<Id, Challenge>, c: Id, row: Challenge)
    requires c in challenges ==> row.purpose == challenges[c].purpose
    requires c in challenges ==> challenges[c].session.Some? ==> row.session == challenges[c].session
    requires c in challenges && Dead(challenges[c]) ==> Dead(row)
    ensures ChallengesKept(challenges, challenges[c := row])
  {}

  lemma SupersedingKeeps(challenges: map<Id, Challenge>, email: Bytes, c: Id, row: Challenge)
    requires c !in challenges
    ensures ChallengesKept(challenges, Invalidated(challenges, email)[c := row])
  {}

  /** Only challenges changed. */
  lemma ChallengesEvolve(s: State, t: State)
    requires ChallengesKept(s.challenges, t.challenges)
    requires t.sessions == s.sessions && t.attempts == s.attempts && t.unlinks == s.unlinks
    ensures Evolves(s, t)
  {
    hide ChallengesKept;
  }

  lemma PrepareEvolves(s: State, command: PrepareCommand, now: int)
    ensures Evolves(s, Prepare(s, command, now).0)
  {
    hide ProofTargetRefused, ValidRequestKey, RecentForEmail, RecentForSource, TooSoon, Invalidated, Issued, ChallengesKept,
      Evolves;
    EvolvesReflexive(s);
    var t := Prepare(s, command, now).0;
    if t != s {
      SupersedingKeeps(s.challenges, command.email, command.challenge, Issued(command, now));
      ChallengesEvolve(s, t);
    }
  }

  lemma SubmissionEvolves(s: State, challenge: Id, payload: Bytes, submission: Submission)
    ensures Evolves(s, RecordSubmission(s, challenge, payload, submission).0)
  {
    hide ChallengesKept, Evolves;
    EvolvesReflexive(s);
    var t := RecordSubmission(s, challenge, payload, submission).0;
    if t != s {
      OneChallenge(s.challenges, challenge, s.challenges[challenge].(submission := submission));
      ChallengesEvolve(s, t);
    }
  }

  /** Only Users and their methods changed. */
  ghost predicate OnlyMethods(s: State, t: State) {
    && t.sessions == s.sessions && t.unlinks == s.unlinks
    && t.challenges == s.challenges && t.attempts == s.attempts
    && t.externals == s.externals && t.byRequest == s.byRequest
  }

  lemma ResolveKeeps(s: State, purpose: Purpose, key: Key, newUser: Id, now: int)
    ensures ResolveEmail(s, purpose, key, newUser, now).Ok? ==>
      OnlyMethods(s, ResolveEmail(s, purpose, key, newUser, now).value.rows)
    ensures ResolveExternal(s, purpose, key, newUser, now).Ok? ==>
      OnlyMethods(s, ResolveExternal(s, purpose, key, newUser, now).value.rows)
  {
    hide IdentitySession, ResolveLogin, ResolveLink;
    LoginKeeps(s, key, newUser);
    if purpose.Link? { LinkKeepsRows(s, purpose.target, purpose.initiating, key, now); }
  }

  lemma LoginKeeps(s: State, key: Key, newUser: Id)
    ensures ResolveLogin(s, key, newUser).Ok? ==> OnlyMethods(s, ResolveLogin(s, key, newUser).value.rows)
  {
    hide LinkMethod, OnlyMethods;
    MethodsOnly(s, s, newUser, key);
    MethodsOnly(s, s.(users := s.users + {newUser}), newUser, key);
  }

  lemma MethodsOnly(s: State, t: State, user: Id, key: Key)
    requires t == s.(users := t.users)
    ensures OnlyMethods(s, s) && OnlyMethods(s, LinkMethod(t, user, key))
  {}

  lemma LinkKeepsRows(s: State, user: Id, initiating: Id, key: Key, now: int)
    ensures ResolveLink(s, user, initiating, key, now).Ok? ==>
      OnlyMethods(s, ResolveLink(s, user, initiating, key, now).value.rows)
  {
    hide IdentitySession, Linked, LinkMethod, OnlyMethods;
    MethodsOnly(s, s, user, key);
  }

  lemma FinishKeepsRows(s: State, purpose: Purpose, user: Id, kind: Method, session: Id, now: int)
    requires FinishProof(s, purpose, user, kind, session, now).Ok?
    ensures var t := FinishProof(s, purpose, user, kind, session, now).value;
      t == s.(sessions := t.sessions) && SessionsKept(s.sessions, t.sessions)
  {}

  /** Sessions, and the challenge and attempt of a verification, changed. */
  lemma ProofEvolves(s: State, t: State)
    requires SessionsKept(s.sessions, t.sessions) && ChallengesKept(s.challenges, t.challenges)
    requires AttemptsKept(s.attempts, t.attempts) && t.unlinks == s.unlinks
    ensures Evolves(s, t)
  {
    hide SessionsKept, ChallengesKept, AttemptsKept;
  }

  lemma SameRows(s: State)
    ensures ChallengesKept(s.challenges, s.challenges) && AttemptsKept(s.attempts, s.attempts)
    ensures SessionsKept(s.sessions, s.sessions) && UnlinksKept(s.unlinks, s.unlinks)
  {}

  lemma CompleteEvolves(s: State, command: CompleteCommand, newUser: Id, now: int)
    ensures Evolves(s, CompleteExternal(s, command, newUser, now).0)
  {
    hide ResolveExternal, ResolveEmail, FinishProof, ValidExternalKey, Evolves, SessionsKept, ChallengesKept, AttemptsKept;
    EvolvesReflexive(s);
    if CompleteExternal(s, command, newUser, now).1.Ok? {
      var purpose := s.externals[command.transaction].purpose;
      var proved := ResolveExternal(s, purpose, command.key, newUser, now).value;
      ResolveKeeps(s, purpose, command.key, newUser, now);
      FinishKeepsRows(proved.rows, purpose, proved.user, MethodOf(command.key), command.session, now);
      SameRows(s);
      ProofEvolves(s, CompleteExternal(s, command, newUser, now).0);
    }
  }

  lemma VerifyEvolves(s: State, command: VerifyCommand, newUser: Id, now: int)
    ensures Evolves(s, Verify(s, command, newUser, now).0)
  {
    hide ResolveExternal, ResolveEmail, FinishProof, ValidRequestKey, LiveSession, Addresses, Evolves, SessionsKept,
      ChallengesKept, AttemptsKept;
    EvolvesReflexive(s);
    var (t, r) := Verify(s, command, newUser, now);
    if t != s {
      var challenge := s.challenges[command.challenge];
      if r.Ok? {
        var proved := ResolveEmail(s, challenge.purpose, EmailKey(challenge.email), newUser, now).value;
        ResolveKeeps(s, challenge.purpose, EmailKey(challenge.email), newUser, now);
        FinishKeepsRows(proved.rows, challenge.purpose, proved.user, Email, command.session, now);
        AnswerEvolves(s, t, command, true, challenge.(session := Some(command.session)));
      } else {
        SameRows(s);
        AnswerEvolves(s, t, command, false, challenge.(attempts := challenge.attempts + 1));
      }
    }
  }

  lemma AnswerEvolves(s: State, t: State, command: VerifyCommand, succeeded: bool, row: Challenge)
    requires command.challenge in s.challenges && AttemptKey(command.challenge, command.key) !in s.attempts
    requires t.attempts == s.attempts[AttemptKey(command.challenge, command.key) := Attempt(command.digest, succeeded)]
    requires t.challenges == s.challenges[command.challenge := row] && t.unlinks == s.unlinks
    requires var challenge := s.challenges[command.challenge];
      row.purpose == challenge.purpose && challenge.session.None? && !Dead(challenge)
    requires SessionsKept(s.sessions, t.sessions)
    ensures Evolves(s, t)
  {
    hide SessionsKept;
  }

  lemma UnlinkEvolves(s: State, command: UnlinkCommand, now: int)
    ensures Evolves(s, UnlinkMethod(s, command, now).0)
  {
    hide UnlinkRefused, ValidRequestKey, LiveSession, Evolves, Unlinked;
    EvolvesReflexive(s);
    if UnlinkMethod(s, command, now).0 != s {
      UnlinkedEvolves(s, command, s.sessions[command.session].user, now);
    }
  }

  lemma UnlinkedEvolves(s: State, command: UnlinkCommand, user: Id, now: int)
    requires command.session in s.sessions && UnlinkRefused(s, command, user, now).None?
    requires UnlinkKey(command.session, command.key) !in s.unlinks
    ensures Evolves(s, Unlinked(s, command, user, now))
  {
    hide IdentitySession, ChallengesKept, AttemptsKept;
    SameRows(s);
  }

  lemma SignOutEvolves(s: State, session: Id)
    ensures Evolves(s, Apply(s, OpSignOut(session)))
  {
    hide ChallengesKept, AttemptsKept, UnlinksKept;
    SameRows(s);
  }

  lemma StepEvolves(s: State, op: Op)
    ensures Evolves(s, Apply(s, op))
  {
    hide Verify, CompleteExternal, UnlinkMethod, Prepare, RecordSubmission, Evolves;
    match op
    case OpPrepare(prepare, preparedAt) => PrepareEvolves(s, prepare, preparedAt);
    case OpSubmission(challenge, payload, submission) => SubmissionEvolves(s, challenge, payload, submission);
    case OpVerify(verify, verifiedUser, verifiedAt) => VerifyEvolves(s, verify, verifiedUser, verifiedAt);
    case OpComplete(complete, newUser, completedAt) => CompleteEvolves(s, complete, newUser, completedAt);
    case OpUnlink(unlink, unlinkedAt) => UnlinkEvolves(s, unlink, unlinkedAt);
    case OpSignOut(session) => SignOutEvolves(s, session);
    case OpExternals(externals) =>
      SameRows(s);
      ProofEvolves(s, Apply(s, op));
  }

  lemma {:induction false} RunEvolves(s: State, ops: seq<Op>)
    ensures Evolves(s, Run(s, ops))
    decreases |ops|
  {
    hide Apply, Evolves;
    if ops == [] {
      EvolvesReflexive(s);
    } else {
      var init := Run(s, ops[..|ops| - 1]);
      RunEvolves(s, ops[..|ops| - 1]);
      StepEvolves(init, ops[|ops| - 1]);
      EvolvesTransitive(s, init, Run(s, ops));
    }
  }

  // ----- Replays -----

  /**
    At any later time an unlink request answers its replays with the same
    replacement, as long as that Session is neither revoked nor a Session
    lifetime old, and conflicts for anything else.
   */
  lemma UnlinkReplay(s: State, command: UnlinkCommand, now: int, ops: seq<Op>, replay: UnlinkCommand, later: int)
    requires UnlinkMethod(s, command, now).1.Ok? && UnlinkKey(command.session, command.key) !in s.unlinks
    requires replay.session == command.session && replay.key == command.key
    ensures var t := Run(UnlinkMethod(s, command, now).0, ops);
      && command.replacement in t.sessions
      && UnlinkMethod(t, replay, later) ==
           if replay.kind != command.kind || replay.digest != command.digest then (t, Err(IdempotencyConflict))
           else if !t.sessions[command.replacement].revoked && later < now + SESSION_LIFETIME
           then (t, Ok(command.replacement)) else (t, Err(Unauthenticated))
  {
    hide ValidRequestKey, Run, UnlinkMethod, Evolves;
    RunEvolves(UnlinkMethod(s, command, now).0, ops);
    UnlinkRecorded(s, command, now);
    RecordedUnlinkReplays(UnlinkMethod(s, command, now).0, Run(UnlinkMethod(s, command, now).0, ops), command,
                          now + SESSION_LIFETIME, replay, later);
  }

  /** An unlink is on record with its replacement Session. */
  ghost predicate UnlinkOnRecord(s: State, command: UnlinkCommand, expiresAt: int) {
    var request := UnlinkKey(command.session, command.key);
    && ValidRequestKey(command.key)
    && request in s.unlinks && s.unlinks[request].kind == command.kind && s.unlinks[request].digest == command.digest
    && s.unlinks[request].replacement == command.replacement
    && command.replacement in s.sessions && s.sessions[command.replacement].expiresAt == expiresAt
  }

  lemma UnlinkRecorded(s: State, command: UnlinkCommand, now: int)
    requires UnlinkMethod(s, command, now).1.Ok? && UnlinkKey(command.session, command.key) !in s.unlinks
    ensures UnlinkOnRecord(UnlinkMethod(s, command, now).0, command, now + SESSION_LIFETIME)
  {
    hide ValidRequestKey, UnlinkRefused, RevokeAll;
  }

  lemma RecordedUnlinkReplays(s: State, t: State, command: UnlinkCommand, expiresAt: int, replay: UnlinkCommand, later: int)
    requires UnlinkOnRecord(s, command, expiresAt) && Evolves(s, t)
    requires replay.session == command.session && replay.key == command.key
    ensures command.replacement in t.sessions
    ensures UnlinkMethod(t, replay, later) ==
      if replay.kind != command.kind || replay.digest != command.digest then (t, Err(IdempotencyConflict))
      else if !t.sessions[command.replacement].revoked && later < expiresAt
      then (t, Ok(command.replacement)) else (t, Err(Unauthenticated))
  {
    hide ValidRequestKey, UnlinkRefused, ChallengesKept, AttemptsKept;
  }

  /**
    At any later time a verification that was answered before is answered again
    without spending or creating anything, and its Session never comes back to life.
   */
  lemma VerifyReplaySpendsNothing(s: State, command: VerifyCommand, newUser: Id, now: int, ops: seq<Op>, otherUser: Id,
                                  later: int)
    requires Verify(s, command, newUser, now).0 != s
    ensures var (u, r) := Verify(s, command, newUser, now);
      var t := Run(u, ops);
      && Verify(t, command, otherUser, later).0 == t
      && (r.Err? ==> Verify(t, command, otherUser, later).1 == Err(InvalidCode))
      && (r.Ok? ==>
            r.value in t.sessions
            && Verify(t, command, otherUser, later).1 ==
                 if !t.sessions[r.value].revoked && later < now + SESSION_LIFETIME then r else Err(Unauthenticated))
  {
    hide ResolveEmail, FinishProof, ValidRequestKey, Run, Addresses, Evolves;
    var (u, r) := Verify(s, command, newUser, now);
    RunEvolves(u, ops);
    AnsweredOnRecord(s, command, newUser, now);
    StaysAnswered(u, Run(u, ops), command, r, now + SESSION_LIFETIME);
    AnsweredReplays(Run(u, ops), command, r, now + SESSION_LIFETIME, otherUser, later);
  }

  /** A verification is on record with its answer, and with the Session it made. */
  ghost predicate Answered(s: State, command: VerifyCommand, r: Result<Id, Error>, expiresAt: int) {
    var request := AttemptKey(command.challenge, command.key);
    && ValidRequestKey(command.key) && !(command.link && command.initiating.None?)
    && command.challenge in s.challenges && Addresses(command, s.challenges[command.challenge].purpose)
    && request in s.attempts && s.attempts[request] == Attempt(command.digest, r.Ok?)
    && (r.Ok? ==>
          && s.challenges[command.challenge].session == Some(r.value)
          && r.value in s.sessions && s.sessions[r.value].expiresAt == expiresAt)
  }

  lemma AnsweredOnRecord(s: State, command: VerifyCommand, newUser: Id, now: int)
    requires Verify(s, command, newUser, now).0 != s
    ensures var (t, r) := Verify(s, command, newUser, now); Answered(t, command, r, now + SESSION_LIFETIME)
  {
    hide ResolveEmail, ResolveExternal, ValidRequestKey, Addresses;
  }

  lemma StaysAnswered(s: State, t: State, command: VerifyCommand, r: Result<Id, Error>, expiresAt: int)
    requires Answered(s, command, r, expiresAt) && Evolves(s, t)
    ensures Answered(t, command, r, expiresAt)
  {
    hide ValidRequestKey, Addresses;
  }

  lemma AnsweredReplays(t: State, command: VerifyCommand, r: Result<Id, Error>, expiresAt: int, otherUser: Id, later: int)
    requires Answered(t, command, r, expiresAt)
    ensures Verify(t, command, otherUser, later) ==
      if r.Err? then (t, Err(InvalidCode))
      else if !t.sessions[r.value].revoked && later < expiresAt then (t, r) else (t, Err(Unauthenticated))
  {
    hide ValidRequestKey, Addresses, ResolveEmail, FinishProof;
  }

  /** A code signs in at most once: whatever happens later, its challenge yields no second Session. */
  lemma CodeSignsInOnce(s: State, challenge: Id, ops: seq<Op>, command: VerifyCommand, newUser: Id, now: int)
    requires challenge in s.challenges && s.challenges[challenge].session.Some? && command.challenge == challenge
    ensures var t := Run(s, ops);
      && Verify(t, command, newUser, now).0 == t
      && (Verify(t, command, newUser, now).1.Ok? ==>
            Verify(t, command, newUser, now).1.value == s.challenges[challenge].session.value)
  {
    hide Run, ResolveEmail, FinishProof, ValidRequestKey, LiveSession, Addresses;
    RunEvolves(s, ops);
  }

  /** A superseded code, or one whose attempts ran out, never signs anyone in and never spends anything again. */
  lemma DeadCodesNeverWork(s: State, challenge: Id, ops: seq<Op>, command: VerifyCommand, newUser: Id, now: int)
    requires challenge in s.challenges && Dead(s.challenges[challenge]) && command.challenge == challenge
    ensures Verify(Run(s, ops), command, newUser, now).0 == Run(s, ops)
    ensures Verify(Run(s, ops), command, newUser, now).1.Err?
  {
    hide Run, ResolveEmail, FinishProof, ValidRequestKey, LiveSession, Addresses;
    RunEvolves(s, ops);
  }

  /**
    A fresh request is answered with a challenge exactly within the limits. The
    new challenge is then the Email's only usable one, whatever was sent before,
    and nobody's sign-in methods or Sessions are touched.
   */
  lemma PrepareSupersedes(s: State, command: PrepareCommand, now: int, other: Id, later: int)
    requires ProofTargetRefused(s, command.purpose, command.email, now).None?
    requires command.email != [] && ValidRequestKey(command.key)
    requires command.key !in s.byRequest && command.challenge !in s.challenges
    ensures Prepare(s, command, now).1.Ok? <==>
      && |RecentForEmail(s.challenges, command.email, now)| < 5 && |RecentForSource(s.challenges, command.source, now)| < 20
      && forall c :: c in s.challenges && s.challenges[c].email == command.email ==>
           s.challenges[c].createdAt + RESEND_DELAY <= now
    ensures Prepare(s, command, now).1.Ok? ==>
      var t := Prepare(s, command, now).0;
      && t == s.(challenges := t.challenges, byRequest := t.byRequest)
      && t.challenges.Keys == s.challenges.Keys + {command.challenge}
      && Usable(t.challenges[command.challenge], now) && t.challenges[command.challenge].code == command.code
      && (other in t.challenges && t.challenges[other].email == command.email && Usable(t.challenges[other], later) ==>
            other == command.challenge)
      && (other in s.challenges && s.challenges[other].email == command.email && s.challenges[other].session.None? ==>
            Dead(t.challenges[other]))
      && (other in s.challenges && s.challenges[other].email != command.email ==>
            t.challenges[other] == s.challenges[other])
  {
    hide ProofTargetRefused, ValidRequestKey, RecentForEmail, RecentForSource;
  }
}
