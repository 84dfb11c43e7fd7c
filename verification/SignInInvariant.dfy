/** What every sign-in transaction keeps, table by table, and its preservation. */
module SignInInvariant {
  import opened Wrappers
  import opened Ids
  import opened Text
  import opened SignIn

  // ----- Methods and Sessions -----

  /** The identity tables and their User index agree: one owner per key, one key per User and kind. */
  ghost predicate MethodsSound(users: set<Id>, owners: map<Key, Id>, methods: map<UserMethod, Key>) {
    && (forall key {:trigger key in owners} :: key in owners ==>
          && owners[key] in users
          && UserMethod(owners[key], MethodOf(key)) in methods
          && methods[UserMethod(owners[key], MethodOf(key))] == key)
    && (forall m {:trigger m in methods} :: m in methods ==>
          methods[m] in owners && owners[methods[m]] == m.user && MethodOf(methods[m]) == m.kind)
  }

  ghost predicate HasMethod(methods: map<UserMethod, Key>, user: Id) {
    exists kind :: UserMethod(user, kind) in methods
  }

  /** Every User can sign in. */
  ghost predicate UsersSignIn(users: set<Id>, methods: map<UserMethod, Key>) {
    forall user {:trigger user in users} :: user in users ==> HasMethod(methods, user)
  }

  /** Every unrevoked Session was proved with a method its User still has. */
  ghost predicate SessionsProved(sessions: map<Id, Session>, methods: map<UserMethod, Key>) {
    forall id {:trigger id in sessions} :: id in sessions && !sessions[id].revoked ==>
      UserMethod(sessions[id].user, sessions[id].proof) in methods
  }

  ghost predicate Identities(s: State) {
    MethodsSound(s.users, s.owners, s.methods) && UsersSignIn(s.users, s.methods) && SessionsProved(s.sessions, s.methods)
  }

  // ----- Challenges -----

  ghost function EmailWindow(challenges: map<Id, Challenge>, email: Bytes, start: int): set<Id> {
    set c | c in challenges && challenges[c].email == email && start <= challenges[c].createdAt < start + HOUR
  }

  ghost function SourceWindow(challenges: map<Id, Challenge>, source: Bytes, start: int): set<Id> {
    set c | c in challenges && challenges[c].source == source && start <= challenges[c].createdAt < start + HOUR
  }

  ghost predicate EmailLimited(challenges: map<Id, Challenge>) {
    forall email, start {:trigger EmailWindow(challenges, email, start)} ::
      |EmailWindow(challenges, email, start)| <= EMAIL_LIMIT
  }

  ghost predicate SourceLimited(challenges: map<Id, Challenge>) {
    forall source, start {:trigger SourceWindow(challenges, source, start)} ::
      |SourceWindow(challenges, source, start)| <= SOURCE_LIMIT
  }

  ghost predicate Apart(a: Challenge, b: Challenge) {
    a.email == b.email ==> a.createdAt + RESEND_DELAY <= b.createdAt || b.createdAt + RESEND_DELAY <= a.createdAt
  }

  ghost predicate Spaced(challenges: map<Id, Challenge>) {
    forall a, b {:trigger Apart(challenges[a], challenges[b])} ::
      a in challenges && b in challenges && a != b ==> Apart(challenges[a], challenges[b])
  }

  ghost predicate OneCurrent(challenges: map<Id, Challenge>) {
    forall a, b {:trigger Current(challenges[a]), Current(challenges[b])} ::
      (a in challenges && b in challenges && challenges[a].email == challenges[b].email
       && Current(challenges[a]) && Current(challenges[b])) ==> a == b
  }

  ghost function WrongAttempts(attempts: map<AttemptKey, Attempt>, challenge: Id): set<AttemptKey> {
    set k | k in attempts && k.challenge == challenge && !attempts[k].succeeded
  }

  /** The attempts a challenge has spent are exactly its recorded wrong ones, at most five. */
  ghost predicate AttemptsCounted(challenges: map<Id, Challenge>, attempts: map<AttemptKey, Attempt>) {
    && (forall c {:trigger c in challenges} :: c in challenges ==>
          |WrongAttempts(attempts, c)| == challenges[c].attempts <= ATTEMPT_LIMIT)
    && (forall k {:trigger k in attempts} :: k in attempts ==> k.challenge in challenges)
    && (forall k {:trigger k in attempts} :: k in attempts && attempts[k].succeeded ==>
          k.challenge in challenges && challenges[k.challenge].session.Some?)
  }

  ghost predicate Challenges(s: State) {
    && EmailLimited(s.challenges) && SourceLimited(s.challenges) && Spaced(s.challenges) && OneCurrent(s.challenges)
    && AttemptsCounted(s.challenges, s.attempts)
  }

  ghost predicate Inv(s: State) {
    Identities(s) && Challenges(s)
  }

  lemma EmptyInv()
    ensures Inv(EMPTY)
  {}

  // ----- Proofs -----

  lemma LinkKeeps(s: State, user: Id, key: Key)
    requires MethodsSound(s.users, s.owners, s.methods) && user in s.users
    requires key !in s.owners && !Linked(s, user, MethodOf(key))
    ensures var t := LinkMethod(s, user, key);
      && MethodsSound(t.users, t.owners, t.methods)
      && Linked(t, user, MethodOf(key))
      && forall m :: m in s.methods ==> m in t.methods
  {}

  lemma MoreMethods(users: set<Id>, sessions: map<Id, Session>, methods: map<UserMethod, Key>, later: map<UserMethod, Key>)
    requires UsersSignIn(users, methods) && SessionsProved(sessions, methods)
    requires forall m :: m in methods ==> m in later
    ensures UsersSignIn(users, later) && SessionsProved(sessions, later)
  {
    forall user | user in users ensures HasMethod(later, user) {
      var kind :| UserMethod(user, kind) in methods;
      assert UserMethod(user, kind) in later;
    }
  }

  lemma LinkedUser(users: set<Id>, methods: map<UserMethod, Key>, user: Id, kind: Method)
    requires UsersSignIn(users, methods) && UserMethod(user, kind) in methods
    ensures UsersSignIn(users + {user}, methods)
  {
    assert HasMethod(methods, user);
  }

  /** A proved key belongs to the User it speaks for, and nobody lost a method. */
  ghost predicate ProvedBy(s: State, proved: Proved, key: Key) {
    && Identities(proved.rows)
    && proved.rows == s.(users := proved.rows.users, owners := proved.rows.owners, methods := proved.rows.methods)
    && Linked(proved.rows, proved.user, MethodOf(key))
    && key in proved.rows.owners && proved.rows.owners[key] == proved.user
  }

  lemma LoginProves(s: State, key: Key, newUser: Id)
    requires Identities(s) && ResolveLogin(s, key, newUser).Ok?
    ensures ProvedBy(s, ResolveLogin(s, key, newUser).value, key)
  {
    if key !in s.owners {
      var grown := s.(users := s.users + {newUser});
      var t := LinkMethod(grown, newUser, key);
      LinkKeeps(grown, newUser, key);
      MoreMethods(s.users, s.sessions, s.methods, t.methods);
      LinkedUser(s.users, t.methods, newUser, MethodOf(key));
    }
    hide MethodsSound, UsersSignIn, SessionsProved;
  }

  lemma LinkProves(s: State, user: Id, initiating: Id, key: Key, now: int)
    requires Identities(s) && ResolveLink(s, user, initiating, key, now).Ok?
    ensures ProvedBy(s, ResolveLink(s, user, initiating, key, now).value, key)
  {
    hide IdentitySession;
    var t := LinkMethod(s, user, key);
    LinkKeeps(s, user, key);
    MoreMethods(s.users, s.sessions, s.methods, t.methods);
    hide MethodsSound, UsersSignIn, SessionsProved;
  }

  lemma OwnerProves(s: State, user: Id, key: Key)
    requires Identities(s) && key in s.owners && s.owners[key] == user
    ensures ProvedBy(s, Proved(s, user), key)
  {}

  lemma ExternalProves(s: State, purpose: Purpose, key: Key, newUser: Id, now: int)
    requires Identities(s) && ResolveExternal(s, purpose, key, newUser, now).Ok?
    ensures ProvedBy(s, ResolveExternal(s, purpose, key, newUser, now).value, key)
  {
    hide Identities, ProvedBy, IdentitySession, ResolveLogin, ResolveLink;
    match purpose
    case Login => LoginProves(s, key, newUser);
    case Reauthenticate(user, initiating) => OwnerProves(s, user, key);
    case Link(user, initiating) => LinkProves(s, user, initiating, key, now);
  }

  lemma EmailProves(s: State, purpose: Purpose, key: Key, newUser: Id, now: int)
    requires Identities(s) && ResolveEmail(s, purpose, key, newUser, now).Ok?
    ensures ProvedBy(s, ResolveEmail(s, purpose, key, newUser, now).value, key)
  {
    hide Identities, ProvedBy, IdentitySession, ResolveLogin, ResolveLink;
    match purpose
    case Login => LoginProves(s, key, newUser);
    case Reauthenticate(user, initiating) => OwnerProves(s, user, key);
    case Link(user, initiating) => LinkProves(s, user, initiating, key, now);
  }

  lemma FinishKeeps(s: State, purpose: Purpose, user: Id, kind: Method, session: Id, now: int)
    requires Identities(s) && Linked(s, user, kind) && FinishProof(s, purpose, user, kind, session, now).Ok?
    ensures var t := FinishProof(s, purpose, user, kind, session, now).value;
      Identities(t) && t == s.(sessions := t.sessions)
  {
    hide MethodsSound, UsersSignIn;
  }

  // ----- Removing a method -----

  lemma UnlinkedKeeps(s: State, command: UnlinkCommand, user: Id, now: int)
    requires Identities(s) && command.session in s.sessions && s.sessions[command.session].user == user
    requires UnlinkRefused(s, command, user, now).None?
    ensures Identities(Unlinked(s, command, user, now))
  {
    UnlinkedMethods(s, command, user);
    hide MethodsSound, UsersSignIn, SessionsProved;
  }

  lemma UnlinkedMethods(s: State, command: UnlinkCommand, user: Id)
    requires MethodsSound(s.users, s.owners, s.methods) && UsersSignIn(s.users, s.methods)
    requires SessionsProved(s.sessions, s.methods)
    requires Linked(s, user, command.kind) && command.session in s.sessions
    requires s.sessions[command.session].user == user && !s.sessions[command.session].revoked
    requires s.sessions[command.session].proof != command.kind
    ensures var removed := UserMethod(user, command.kind);
      && MethodsSound(s.users, s.owners - {s.methods[removed]}, s.methods - {removed})
      && UsersSignIn(s.users, s.methods - {removed})
  {
    var removed := UserMethod(user, command.kind);
    var later := s.methods - {removed};
    forall u | u in s.users ensures HasMethod(later, u) {
      if u == user {
        assert UserMethod(user, s.sessions[command.session].proof) in later;
      } else {
        var kind :| UserMethod(u, kind) in s.methods;
        assert UserMethod(u, kind) in later;
      }
    }
  }

  // ----- Limits -----

  /** The sets a limit counts do not change when challenges keep their address, source and time. */
  ghost predicate SameStamps(challenges: map<Id, Challenge>, later: map<Id, Challenge>) {
    && later.Keys == challenges.Keys
    && forall c {:trigger c in challenges} :: c in challenges ==>
         && later[c].email == challenges[c].email && later[c].source == challenges[c].source
         && later[c].createdAt == challenges[c].createdAt
         && (Current(later[c]) ==> Current(challenges[c]))
  }

  lemma StampsKeep(challenges: map<Id, Challenge>, later: map<Id, Challenge>)
    requires EmailLimited(challenges) && SourceLimited(challenges) && Spaced(challenges) && OneCurrent(challenges)
    requires SameStamps(challenges, later)
    ensures EmailLimited(later) && SourceLimited(later) && Spaced(later) && OneCurrent(later)
  {
    EmailStamps(challenges, later);
    SourceStamps(challenges, later);
    SpacedStamps(challenges, later);
    CurrentStamps(challenges, later);
  }

  lemma EmailStamps(challenges: map<Id, Challenge>, later: map<Id, Challenge>)
    requires EmailLimited(challenges) && SameStamps(challenges, later)
    ensures EmailLimited(later)
  {
    hide Current;
    forall email, start ensures |EmailWindow(later, email, start)| <= EMAIL_LIMIT {
      assert EmailWindow(later, email, start) == EmailWindow(challenges, email, start);
    }
  }

  lemma SourceStamps(challenges: map<Id, Challenge>, later: map<Id, Challenge>)
    requires SourceLimited(challenges) && SameStamps(challenges, later)
    ensures SourceLimited(later)
  {
    hide Current;
    forall source, start ensures |SourceWindow(later, source, start)| <= SOURCE_LIMIT {
      assert SourceWindow(later, source, start) == SourceWindow(challenges, source, start);
    }
  }

  lemma SpacedStamps(challenges: map<Id, Challenge>, later: map<Id, Challenge>)
    requires Spaced(challenges) && SameStamps(challenges, later)
    ensures Spaced(later)
  {
    hide Current;
    forall a, b | a in later && b in later && a != b ensures Apart(later[a], later[b]) {
      assert Apart(challenges[a], challenges[b]);
    }
  }

  lemma CurrentStamps(challenges: map<Id, Challenge>, later: map<Id, Challenge>)
    requires OneCurrent(challenges) && SameStamps(challenges, later)
    ensures OneCurrent(later)
  {
    hide Current;
    forall a, b | a in later && b in later && later[a].email == later[b].email && Current(later[a]) && Current(later[b])
      ensures a == b
    {
      assert Current(challenges[a]) && Current(challenges[b]);
    }
  }

  lemma EmailWindowAdds(challenges: map<Id, Challenge>, c: Id, challenge: Challenge, email: Bytes, start: int)
    requires c !in challenges
    ensures EmailWindow(challenges[c := challenge], email, start) ==
      EmailWindow(challenges, email, start)
        + if email == challenge.email && start <= challenge.createdAt < start + HOUR then {c} else {}
  {}

  lemma EmailWindowRecent(challenges: map<Id, Challenge>, email: Bytes, start: int, now: int)
    requires start <= now < start + HOUR
    ensures EmailWindow(challenges, email, start) <= RecentForEmail(challenges, email, now)
  {}

  /** Admitting one more challenge keeps every window: the clock need not be monotone. */
  lemma EmailAdmitted(challenges: map<Id, Challenge>, c: Id, challenge: Challenge)
    requires EmailLimited(challenges) && c !in challenges
    requires |RecentForEmail(challenges, challenge.email, challenge.createdAt)| < EMAIL_LIMIT
    ensures EmailLimited(challenges[c := challenge])
  {
    hide EmailWindow, RecentForEmail;
    var later := challenges[c := challenge];
    forall email, start ensures |EmailWindow(later, email, start)| <= EMAIL_LIMIT {
      var before := EmailWindow(challenges, email, start);
      EmailWindowAdds(challenges, c, challenge, email, start);
      if email == challenge.email && start <= challenge.createdAt < start + HOUR {
        EmailWindowRecent(challenges, email, start, challenge.createdAt);
        Subset(before, RecentForEmail(challenges, email, challenge.createdAt));
      }
    }
  }

  lemma SourceWindowAdds(challenges: map<Id, Challenge>, c: Id, challenge: Challenge, source: Bytes, start: int)
    requires c !in challenges
    ensures SourceWindow(challenges[c := challenge], source, start) ==
      SourceWindow(challenges, source, start)
        + if source == challenge.source && start <= challenge.createdAt < start + HOUR then {c} else {}
  {}

  lemma SourceWindowRecent(challenges: map<Id, Challenge>, source: Bytes, start: int, now: int)
    requires start <= now < start + HOUR
    ensures SourceWindow(challenges, source, start) <= RecentForSource(challenges, source, now)
  {}

  lemma SourceAdmitted(challenges: map<Id, Challenge>, c: Id, challenge: Challenge)
    requires SourceLimited(challenges) && c !in challenges
    requires |RecentForSource(challenges, challenge.source, challenge.createdAt)| < SOURCE_LIMIT
    ensures SourceLimited(challenges[c := challenge])
  {
    hide SourceWindow, RecentForSource;
    var later := challenges[c := challenge];
    forall source, start ensures |SourceWindow(later, source, start)| <= SOURCE_LIMIT {
      var before := SourceWindow(challenges, source, start);
      SourceWindowAdds(challenges, c, challenge, source, start);
      if source == challenge.source && start <= challenge.createdAt < start + HOUR {
        SourceWindowRecent(challenges, source, start, challenge.createdAt);
        Subset(before, RecentForSource(challenges, source, challenge.createdAt));
      }
    }
  }

  lemma Subset(a: set<Id>, b: set<Id>)
    requires a <= b
    ensures |a| <= |b|
  {
    assert b == a + (b - a);
  }

  lemma SpacedAdmitted(challenges: map<Id, Challenge>, c: Id, challenge: Challenge)
    requires Spaced(challenges) && c !in challenges && !TooSoon(challenges, challenge.email, challenge.createdAt)
    ensures Spaced(challenges[c := challenge])
  {
    var later := challenges[c := challenge];
    forall a, b | a in later && b in later && a != b ensures Apart(later[a], later[b]) {
      if a != c && b != c { assert Apart(challenges[a], challenges[b]); }
    }
  }

  lemma CurrentAdmitted(challenges: map<Id, Challenge>, c: Id, challenge: Challenge)
    requires OneCurrent(challenges) && c !in challenges
    requires forall d :: d in challenges && challenges[d].email == challenge.email ==> !Current(challenges[d])
    ensures OneCurrent(challenges[c := challenge])
  {
    hide Current;
    var later := challenges[c := challenge];
    forall a, b | a in later && b in later && later[a].email == later[b].email && Current(later[a]) && Current(later[b])
      ensures a == b
    {
      if a != c && b != c { assert Current(challenges[a]) && Current(challenges[b]); }
    }
  }

  lemma InvalidatedStamps(challenges: map<Id, Challenge>, email: Bytes)
    ensures Invalidated(challenges, email).Keys == challenges.Keys
    ensures SameStamps(challenges, Invalidated(challenges, email))
    ensures forall c :: c in challenges ==>
      (Invalidated(challenges, email)[c].attempts == challenges[c].attempts
       && Invalidated(challenges, email)[c].session == challenges[c].session)
    ensures forall c :: c in challenges && challenges[c].email == email ==> !Current(Invalidated(challenges, email)[c])
  {}

  lemma RecentSame(challenges: map<Id, Challenge>, later: map<Id, Challenge>, email: Bytes, source: Bytes, now: int)
    requires SameStamps(challenges, later)
    ensures RecentForEmail(later, email, now) == RecentForEmail(challenges, email, now)
    ensures RecentForSource(later, source, now) == RecentForSource(challenges, source, now)
    ensures TooSoon(later, email, now) == TooSoon(challenges, email, now)
  {
    hide Current;
  }

  lemma AttemptsSame(challenges: map<Id, Challenge>, later: map<Id, Challenge>, attempts: map<AttemptKey, Attempt>)
    requires AttemptsCounted(challenges, attempts) && later.Keys == challenges.Keys
    requires forall c :: c in challenges ==>
      later[c].attempts == challenges[c].attempts && (challenges[c].session.Some? ==> later[c].session.Some?)
    ensures AttemptsCounted(later, attempts)
  {}

  lemma AttemptsOfNew(challenges: map<Id, Challenge>, attempts: map<AttemptKey, Attempt>, c: Id, challenge: Challenge)
    requires AttemptsCounted(challenges, attempts) && c !in challenges && challenge.attempts == 0
    ensures AttemptsCounted(challenges[c := challenge], attempts)
  {
    assert WrongAttempts(attempts, c) == {};
  }

  /** The challenges after an admitted request. */
  lemma PreparedKeeps(s: State, command: PrepareCommand, now: int)
    requires Challenges(s) && command.challenge !in s.challenges
    requires |RecentForEmail(s.challenges, command.email, now)| < EMAIL_LIMIT
    requires |RecentForSource(s.challenges, command.source, now)| < SOURCE_LIMIT
    requires !TooSoon(s.challenges, command.email, now)
    ensures Challenges(s.(challenges := Invalidated(s.challenges, command.email)[command.challenge := Issued(command, now)]))
  {
    hide EmailLimited, SourceLimited, Spaced, OneCurrent, AttemptsCounted, SameStamps, TooSoon, Invalidated;
    var middle := Invalidated(s.challenges, command.email);
    var challenge := Issued(command, now);
    InvalidatedStamps(s.challenges, command.email);
    StampsKeep(s.challenges, middle);
    RecentSame(s.challenges, middle, command.email, command.source, now);
    EmailAdmitted(middle, command.challenge, challenge);
    SourceAdmitted(middle, command.challenge, challenge);
    SpacedAdmitted(middle, command.challenge, challenge);
    CurrentAdmitted(middle, command.challenge, challenge);
    AttemptsSame(s.challenges, middle, s.attempts);
    AttemptsOfNew(middle, s.attempts, command.challenge, challenge);
  }

  lemma OneChallengeStamps(challenges: map<Id, Challenge>, c: Id, challenge: Challenge)
    requires c in challenges && challenge.email == challenges[c].email && challenge.source == challenges[c].source
    requires challenge.createdAt == challenges[c].createdAt && (Current(challenge) ==> Current(challenges[c]))
    ensures SameStamps(challenges, challenges[c := challenge])
  {}

  lemma WrongAdds(attempts: map<AttemptKey, Attempt>, key: AttemptKey, attempt: Attempt, c: Id)
    requires key !in attempts && !attempt.succeeded
    ensures WrongAttempts(attempts[key := attempt], c) == WrongAttempts(attempts, c) + if c == key.challenge then {key} else {}
    ensures key !in WrongAttempts(attempts, c)
  {}

  lemma WrongCounted(challenges: map<Id, Challenge>, attempts: map<AttemptKey, Attempt>, key: AttemptKey, attempt: Attempt)
    requires AttemptsCounted(challenges, attempts) && key.challenge in challenges && key !in attempts && !attempt.succeeded
    requires challenges[key.challenge].attempts < ATTEMPT_LIMIT
    ensures AttemptsCounted(
      challenges[key.challenge := challenges[key.challenge].(attempts := challenges[key.challenge].attempts + 1)],
      attempts[key := attempt])
  {
    hide WrongAttempts;
    var later := challenges[key.challenge := challenges[key.challenge].(attempts := challenges[key.challenge].attempts + 1)];
    forall c | c in later ensures |WrongAttempts(attempts[key := attempt], c)| == later[c].attempts <= ATTEMPT_LIMIT {
      assert c in challenges;
      WrongAdds(attempts, key, attempt, c);
    }
  }

  lemma RightCounted(challenges: map<Id, Challenge>, attempts: map<AttemptKey, Attempt>, key: AttemptKey, attempt: Attempt,
                     session: Id)
    requires AttemptsCounted(challenges, attempts) && key.challenge in challenges && key !in attempts && attempt.succeeded
    ensures AttemptsCounted(challenges[key.challenge := challenges[key.challenge].(session := Some(session))],
                            attempts[key := attempt])
  {
    forall c ensures WrongAttempts(attempts[key := attempt], c) == WrongAttempts(attempts, c) {}
  }

  // ----- Transactions -----

  lemma CompleteKeeps(s: State, command: CompleteCommand, newUser: Id, now: int)
    requires Inv(s)
    ensures Inv(CompleteExternal(s, command, newUser, now).0)
  {
    hide Identities, EmailLimited, SourceLimited, Spaced, OneCurrent, AttemptsCounted, ResolveExternal, FinishProof,
      ValidExternalKey;
    var t := CompleteExternal(s, command, newUser, now).0;
    if t != s {
      var purpose := s.externals[command.transaction].purpose;
      ExternalProves(s, purpose, command.key, newUser, now);
      var proved := ResolveExternal(s, purpose, command.key, newUser, now).value;
      FinishKeeps(proved.rows, purpose, proved.user, MethodOf(command.key), command.session, now);
      var u := FinishProof(proved.rows, purpose, proved.user, MethodOf(command.key), command.session, now).value;
      SameIdentities(u, t);
    }
  }

  lemma SameIdentities(s: State, t: State)
    requires Identities(s) && t.users == s.users && t.owners == s.owners && t.methods == s.methods
    requires t.sessions == s.sessions
    ensures Identities(t)
  {}

  lemma UnlinkKeeps(s: State, command: UnlinkCommand, now: int)
    requires Inv(s)
    ensures Inv(UnlinkMethod(s, command, now).0)
  {
    hide Identities, EmailLimited, SourceLimited, Spaced, OneCurrent, AttemptsCounted, UnlinkRefused, ValidRequestKey;
    var t := UnlinkMethod(s, command, now).0;
    if t != s {
      UnlinkedKeeps(s, command, s.sessions[command.session].user, now);
    }
  }

  lemma PrepareKeeps(s: State, command: PrepareCommand, now: int)
    requires Inv(s)
    ensures Inv(Prepare(s, command, now).0)
  {
    hide Identities, Challenges, ProofTargetRefused, TooSoon, Invalidated, RecentForEmail, RecentForSource, ValidRequestKey;
    var t := Prepare(s, command, now).0;
    if t != s {
      PreparedKeeps(s, command, now);
      SameIdentities(s, t);
      SameChallenges(s.(challenges := t.challenges), t);
    }
  }

  lemma SameChallenges(s: State, t: State)
    requires Challenges(s) && t.challenges == s.challenges && t.attempts == s.attempts
    ensures Challenges(t)
  {}

  lemma SubmissionKeeps(s: State, challenge: Id, payload: Bytes, submission: Submission)
    requires Inv(s)
    ensures Inv(RecordSubmission(s, challenge, payload, submission).0)
  {
    hide Identities, EmailLimited, SourceLimited, Spaced, OneCurrent, AttemptsCounted, SameStamps;
    var t := RecordSubmission(s, challenge, payload, submission).0;
    if t != s {
      OneChallengeStamps(s.challenges, challenge, t.challenges[challenge]);
      StampsKeep(s.challenges, t.challenges);
      AttemptsSame(s.challenges, t.challenges, s.attempts);
      SameIdentities(s, t);
    }
  }

  lemma VerifyWrongKeeps(s: State, command: VerifyCommand)
    requires Inv(s) && command.challenge in s.challenges && AttemptKey(command.challenge, command.key) !in s.attempts
    requires s.challenges[command.challenge].attempts < ATTEMPT_LIMIT
    ensures var challenge := s.challenges[command.challenge];
      Inv(s.(attempts := s.attempts[AttemptKey(command.challenge, command.key) := Attempt(command.digest, false)],
             challenges := s.challenges[command.challenge := challenge.(attempts := challenge.attempts + 1)]))
  {
    hide Identities, EmailLimited, SourceLimited, Spaced, OneCurrent, AttemptsCounted, SameStamps;
    var challenge := s.challenges[command.challenge];
    var spent := challenge.(attempts := challenge.attempts + 1);
    OneChallengeStamps(s.challenges, command.challenge, spent);
    StampsKeep(s.challenges, s.challenges[command.challenge := spent]);
    WrongCounted(s.challenges, s.attempts, AttemptKey(command.challenge, command.key), Attempt(command.digest, false));
    SameIdentities(s, s.(attempts := s.attempts[AttemptKey(command.challenge, command.key) := Attempt(command.digest, false)],
                         challenges := s.challenges[command.challenge := spent]));
  }

  lemma VerifyRightKeeps(s: State, u: State, command: VerifyCommand)
    requires Challenges(s) && Identities(u) && u.challenges == s.challenges && u.attempts == s.attempts
    requires command.challenge in s.challenges && AttemptKey(command.challenge, command.key) !in s.attempts
    ensures var challenge := s.challenges[command.challenge];
      Inv(u.(challenges := u.challenges[command.challenge := challenge.(session := Some(command.session))],
             attempts := u.attempts[AttemptKey(command.challenge, command.key) := Attempt(command.digest, true)]))
  {
    hide Identities, EmailLimited, SourceLimited, Spaced, OneCurrent, AttemptsCounted, SameStamps;
    var challenge := s.challenges[command.challenge];
    var consumed := challenge.(session := Some(command.session));
    OneChallengeStamps(s.challenges, command.challenge, consumed);
    StampsKeep(s.challenges, s.challenges[command.challenge := consumed]);
    RightCounted(s.challenges, s.attempts, AttemptKey(command.challenge, command.key), Attempt(command.digest, true),
                 command.session);
    SameIdentities(u, u.(challenges := u.challenges[command.challenge := consumed],
                         attempts := u.attempts[AttemptKey(command.challenge, command.key) := Attempt(command.digest, true)]));
  }

  lemma VerifyKeeps(s: State, command: VerifyCommand, newUser: Id, now: int)
    requires Inv(s)
    ensures Inv(Verify(s, command, newUser, now).0)
  {
    hide Identities, Challenges, ResolveEmail, FinishProof, ValidRequestKey, LiveSession, Addresses;
    var t := Verify(s, command, newUser, now).0;
    if t != s {
      var challenge := s.challenges[command.challenge];
      if challenge.code != command.code {
        VerifyWrongKeeps(s, command);
      } else {
        EmailProves(s, challenge.purpose, EmailKey(challenge.email), newUser, now);
        var proved := ResolveEmail(s, challenge.purpose, EmailKey(challenge.email), newUser, now).value;
        FinishKeeps(proved.rows, challenge.purpose, proved.user, Email, command.session, now);
        VerifyRightKeeps(s, FinishProof(proved.rows, challenge.purpose, proved.user, Email, command.session, now).value,
                         command);
      }
    }
  }

  lemma SignOutKeeps(s: State, session: Id)
    requires Inv(s) && session in s.sessions
    ensures Inv(s.(sessions := s.sessions[session := s.sessions[session].(revoked := true)]))
  {
    var t := s.(sessions := s.sessions[session := s.sessions[session].(revoked := true)]);
    SameChallenges(s, t);
    hide Challenges, MethodsSound, UsersSignIn;
  }

  lemma ExternalsKeep(s: State, externals: map<Id, External>)
    requires Inv(s)
    ensures Inv(s.(externals := externals))
  {
    SameChallenges(s, s.(externals := externals));
    SameIdentities(s, s.(externals := externals));
    hide Challenges, Identities;
  }

  lemma StepKeepsInv(s: State, op: Op)
    requires Inv(s)
    ensures Inv(Apply(s, op))
  {
    hide Inv, CompleteExternal, UnlinkMethod, Prepare, RecordSubmission, Verify;
    match op
    case OpExternals(externals) => ExternalsKeep(s, externals);
    case OpComplete(complete, newUser, completedAt) => CompleteKeeps(s, complete, newUser, completedAt);
    case OpUnlink(unlink, unlinkedAt) => UnlinkKeeps(s, unlink, unlinkedAt);
    case OpPrepare(prepare, preparedAt) => PrepareKeeps(s, prepare, preparedAt);
    case OpSubmission(challenge, payload, submission) => SubmissionKeeps(s, challenge, payload, submission);
    case OpVerify(verify, verifiedUser, verifiedAt) => VerifyKeeps(s, verify, verifiedUser, verifiedAt);
    case OpSignOut(session) => if session in s.sessions { SignOutKeeps(s, session); }
  }

  lemma {:induction false} RunKeepsInv(s: State, ops: seq<Op>)
    requires Inv(s)
    ensures Inv(Run(s, ops))
    decreases |ops|
  {
    hide Inv, Apply;
    if ops != [] {
      RunKeepsInv(s, ops[..|ops| - 1]);
      StepKeepsInv(Run(s, ops[..|ops| - 1]), ops[|ops| - 1]);
    }
  }
}
