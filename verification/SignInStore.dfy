/** The sign-in transactions as they run against the tables, with commit and rollback. */
module SignInStore {
  import opened Wrappers
  import opened Ids
  import opened Text
  import opened SignIn

  class Store {
    var users: set<Id>
    var owners: map<Key, Id>
    var methods: map<UserMethod, Key>
    var sessions: map<Id, Session>
    var unlinks: map<UnlinkKey, Unlink>
    var externals: map<Id, External>
    var challenges: map<Id, Challenge>
    var byRequest: map<Bytes, Id>
    var attempts: map<AttemptKey, Attempt>

    constructor ()
      ensures Tables() == EMPTY
    {
      users, owners, methods, sessions, unlinks := {}, map[], map[], map[], map[];
      externals, challenges, byRequest, attempts := map[], map[], map[], map[];
    }

    /** The committed rows. */
    function Tables(): State
      reads this
    {
      State(users, owners, methods, sessions, unlinks, externals, challenges, byRequest, attempts)
    }

    /** Discards what a proof wrote before its transaction failed. */
    method RollbackProof(saved: State)
      modifies this`users, this`owners, this`methods, this`sessions
      ensures users == saved.users && owners == saved.owners && methods == saved.methods && sessions == saved.sessions
    {
      users, owners, methods, sessions := saved.users, saved.owners, saved.methods, saved.sessions;
    }

    // ----- Proofs -----

    method LinkKey(user: Id, key: Key)
      modifies this`owners, this`methods
      ensures Tables() == LinkMethod(old(Tables()), user, key)
    {
      owners := owners[key := user];
      methods := methods[UserMethod(user, MethodOf(key)) := key];
    }

    /** A login finds the key's owner, or creates a User with it. */
    method ResolveOwner(key: Key, newUser: Id) returns (r: Result<Id, Error>)
      modifies this`users, this`owners, this`methods
      ensures r.Ok? ==> ResolveLogin(old(Tables()), key, newUser) == Ok(Proved(Tables(), r.value))
      ensures r.Err? ==> ResolveLogin(old(Tables()), key, newUser) == Err(r.error) && Tables() == old(Tables())
    {
      if key !in owners {
        if newUser in users || UserMethod(newUser, MethodOf(key)) in methods {
          return Err(DatabaseFailure);
        }
        users := users + {newUser};
        LinkKey(newUser, key);
        return Ok(newUser);
      }
      var owner := owners[key];
      if owner !in users {
        return Err(Unauthenticated);
      }
      return Ok(owner);
    }

    /** A link gives the User of a recently proved Session one more method. */
    method LinkCandidate(user: Id, initiating: Id, key: Key, now: int) returns (r: Result<Id, Error>)
      modifies this`owners, this`methods
      ensures r.Ok? ==> ResolveLink(old(Tables()), user, initiating, key, now) == Ok(Proved(Tables(), r.value))
      ensures r.Err? ==>
        ResolveLink(old(Tables()), user, initiating, key, now) == Err(r.error) && Tables() == old(Tables())
    {
      hide IdentitySession;
      if user !in users {
        return Err(Unauthenticated);
      }
      var refused := IdentitySession(Tables(), user, initiating, true, now);
      if refused.Some? {
        return Err(refused.value);
      }
      if UserMethod(user, MethodOf(key)) in methods {
        return Err(IdentityMethodAlreadyLinked);
      }
      if key in owners {
        if owners[key] == user {
          return Err(IdentityMethodAlreadyLinked);
        }
        return Err(IdentityMethodOccupied);
      }
      LinkKey(user, key);
      return Ok(user);
    }

    method ResolveExternalIdentity(purpose: Purpose, key: Key, newUser: Id, now: int) returns (r: Result<Id, Error>)
      modifies this`users, this`owners, this`methods
      ensures r.Ok? ==> ResolveExternal(old(Tables()), purpose, key, newUser, now) == Ok(Proved(Tables(), r.value))
      ensures r.Err? ==>
        ResolveExternal(old(Tables()), purpose, key, newUser, now) == Err(r.error) && Tables() == old(Tables())
    {
      hide IdentitySession, ResolveLogin, ResolveLink;
      match purpose
      case Login =>
        r := ResolveOwner(key, newUser);
      case Reauthenticate(user, initiating) =>
        if user !in users {
          return Err(Unauthenticated);
        }
        var refused := IdentitySession(Tables(), user, initiating, false, now);
        if refused.Some? {
          return Err(refused.value);
        }
        if key !in owners || owners[key] != user {
          return Err(IdentityMethodNotLinked);
        }
        r := Ok(user);
      case Link(user, initiating) =>
        r := LinkCandidate(user, initiating, key, now);
    }

    method ResolveEmailIdentity(purpose: Purpose, key: Key, newUser: Id, now: int) returns (r: Result<Id, Error>)
      modifies this`users, this`owners, this`methods
      ensures r.Ok? ==> ResolveEmail(old(Tables()), purpose, key, newUser, now) == Ok(Proved(Tables(), r.value))
      ensures r.Err? ==>
        ResolveEmail(old(Tables()), purpose, key, newUser, now) == Err(r.error) && Tables() == old(Tables())
    {
      hide IdentitySession, ResolveLogin, ResolveLink;
      match purpose
      case Login =>
        r := ResolveOwner(key, newUser);
      case Reauthenticate(user, initiating) =>
        if key !in owners || owners[key] != user {
          return Err(IdentityMethodNotLinked);
        }
        if user !in users {
          return Err(Unauthenticated);
        }
        var refused := IdentitySession(Tables(), user, initiating, false, now);
        if refused.Some? {
          return Err(refused.value);
        }
        r := Ok(user);
      case Link(user, initiating) =>
        r := LinkCandidate(user, initiating, key, now);
    }

    method RevokeUserBrowserSessions(user: Id)
      modifies this`sessions
      ensures Tables() == RevokeAll(old(Tables()), user)
    {
      sessions := map id | id in sessions ::
        if sessions[id].user == user then sessions[id].(revoked := true) else sessions[id];
    }

    /** Replaces the Sessions the proof supersedes with a new one. */
    method CreateProvedSession(purpose: Purpose, user: Id, kind: Method, session: Id, now: int) returns (r: Result<(), Error>)
      modifies this`sessions
      ensures r.Ok? ==> FinishProof(old(Tables()), purpose, user, kind, session, now) == Ok(Tables())
      ensures r.Err? ==> FinishProof(old(Tables()), purpose, user, kind, session, now) == Err(r.error)
    {
      if purpose.Reauthenticate? {
        var initiating := purpose.initiating;
        if initiating !in sessions || sessions[initiating].revoked {
          return Err(Unauthenticated);
        }
        sessions := sessions[initiating := sessions[initiating].(revoked := true)];
      } else if purpose.Link? {
        RevokeUserBrowserSessions(user);
      }
      if session in sessions {
        return Err(DatabaseFailure);
      }
      sessions := sessions[session := Session(user, kind, now, now + SESSION_LIFETIME, false)];
      return Ok(());
    }

    method CompleteExternalLogin(command: CompleteCommand, newUser: Id, now: int) returns (r: Result<Id, Error>)
      modifies this`users, this`owners, this`methods, this`sessions, this`externals
      ensures (Tables(), r) == CompleteExternal(old(Tables()), command, newUser, now)
    {
      hide ValidExternalKey, ResolveExternal, FinishProof;
      if !ValidExternalKey(command.key) || command.transaction !in externals {
        return Err(ExternalLoginInvalid);
      }
      var current := externals[command.transaction];
      var kind := MethodOf(command.key);
      if current.provider != kind || !current.status.Exchanging? || current.callback != command.callback {
        return Err(ExternalLoginConflict);
      }
      if current.expiresAt <= now {
        return Err(ExternalLoginUnavailable);
      }
      var saved := Tables();
      var user := ResolveExternalIdentity(current.purpose, command.key, newUser, now);
      if user.Err? {
        return Err(user.error);
      }
      var created := CreateProvedSession(current.purpose, user.value, kind, command.session, now);
      if created.Err? {
        RollbackProof(saved);
        return Err(created.error);
      }
      externals := externals[command.transaction := current.(status := Succeeded, session := Some(command.session))];
      return Ok(user.value);
    }

    // ----- Unlinking -----

    /** The guards of an unlink, re-reading the method key under the User's lock. */
    method CheckUnlink(command: UnlinkCommand, user: Id, now: int) returns (refused: Option<Error>)
      ensures refused == UnlinkRefused(Tables(), command, user, now)
    {
      hide IdentitySession;
      if command.observed.None? || command.observed.value !in owners || owners[command.observed.value] != user {
        return Some(IdentityMethodNotLinked);
      }
      if user !in users {
        return Some(Unauthenticated);
      }
      var session := IdentitySession(Tables(), user, command.session, true, now);
      if session.Some? {
        return session;
      }
      var revalidated := UserMethod(user, command.kind);
      if revalidated !in methods || methods[revalidated] != command.observed.value {
        return Some(IdentityMethodNotLinked);
      }
      if MethodCount(Tables(), user) <= 1 {
        return Some(LastIdentityMethod);
      }
      if sessions[command.session].proof == command.kind {
        return Some(RecentIdentityProofRequired);
      }
      if command.replacement in sessions {
        return Some(DatabaseFailure);
      }
      return None;
    }

    method UnlinkIdentityMethod(command: UnlinkCommand, now: int) returns (r: Result<Id, Error>)
      modifies this`owners, this`methods, this`sessions, this`unlinks
      ensures (Tables(), r) == UnlinkMethod(old(Tables()), command, now)
    {
      hide ValidRequestKey, UnlinkRefused, LiveSession;
      if !ValidRequestKey(command.key) {
        return Err(Unauthenticated);
      }
      var request := UnlinkKey(command.session, command.key);
      if request in unlinks {
        var replay := unlinks[request];
        if replay.kind != command.kind || replay.digest != command.digest {
          return Err(IdempotencyConflict);
        }
        if !LiveSession(Tables(), replay.replacement, now) {
          return Err(Unauthenticated);
        }
        return Ok(replay.replacement);
      }
      if command.session !in sessions {
        return Err(Unauthenticated);
      }
      var user, proof := sessions[command.session].user, sessions[command.session].proof;
      var refused := CheckUnlink(command, user, now);
      if refused.Some? {
        return Err(refused.value);
      }
      var removed := UserMethod(user, command.kind);
      owners := owners - {methods[removed]};
      methods := methods - {removed};
      RevokeUserBrowserSessions(user);
      sessions := sessions[command.replacement := Session(user, proof, now, now + SESSION_LIFETIME, false)];
      unlinks := unlinks[request := Unlink(user, command.kind, command.digest, command.replacement)];
      return Ok(command.replacement);
    }

    // ----- Email challenges -----

    method PrepareEmailChallenge(command: PrepareCommand, now: int) returns (r: Result<Id, Error>)
      modifies this`challenges, this`byRequest
      ensures (Tables(), r) == Prepare(old(Tables()), command, now)
    {
      hide ValidRequestKey, ProofTargetRefused, RecentForEmail, RecentForSource, TooSoon;
      if command.email == [] || !ValidRequestKey(command.key) {
        return Err(InvalidChallenge);
      }
      var target := ProofTargetRefused(Tables(), command.purpose, command.email, now);
      if target.Some? {
        return Err(target.value);
      }
      if command.key in byRequest {
        var existing := byRequest[command.key];
        if existing !in challenges {
          return Err(DatabaseFailure);
        }
        if challenges[existing].email != command.email || challenges[existing].digest != command.digest {
          return Err(IdempotencyConflict);
        }
        if challenges[existing].payload != command.payload {
          return Err(EmailPayloadChanged);
        }
        return Ok(existing);
      }
      var emailCount := |RecentForEmail(challenges, command.email, now)|;
      var sourceCount := |RecentForSource(challenges, command.source, now)|;
      var tooSoon := TooSoon(challenges, command.email, now);
      if emailCount >= EMAIL_LIMIT {
        return Err(EmailAddressLimited);
      }
      if sourceCount >= SOURCE_LIMIT {
        return Err(EmailSourceLimited);
      }
      if tooSoon {
        return Err(EmailResendDelayed);
      }
      if command.challenge in challenges {
        return Err(DatabaseFailure);
      }
      challenges := map c | c in challenges ::
        if challenges[c].email == command.email && Current(challenges[c])
        then challenges[c].(invalidated := true) else challenges[c];
      challenges := challenges[command.challenge := Issued(command, now)];
      byRequest := byRequest[command.key := command.challenge];
      return Ok(command.challenge);
    }

    /** `RecordInvalidEmailAttempt` and `SpendEmailChallengeAttempt`; the error is returned after they commit. */
    method SpendAttempt(command: VerifyCommand)
      requires command.challenge in challenges
      modifies this`challenges, this`attempts
      ensures attempts == old(attempts)[AttemptKey(command.challenge, command.key) := Attempt(command.digest, false)]
      ensures challenges == old(challenges)[command.challenge :=
        old(challenges[command.challenge]).(attempts := old(challenges[command.challenge]).attempts + 1)]
    {
      attempts := attempts[AttemptKey(command.challenge, command.key) := Attempt(command.digest, false)];
      challenges := challenges[command.challenge :=
        challenges[command.challenge].(attempts := challenges[command.challenge].attempts + 1)];
    }

    /** The three completions, by the challenge's purpose. */
    method CompleteEmail(challenge: Challenge, session: Id, newUser: Id, now: int) returns (r: Result<(), Error>)
      modifies this`users, this`owners, this`methods, this`sessions
      ensures r.Ok? ==>
        && ResolveEmail(old(Tables()), challenge.purpose, EmailKey(challenge.email), newUser, now).Ok?
        && var proved := ResolveEmail(old(Tables()), challenge.purpose, EmailKey(challenge.email), newUser, now).value;
           FinishProof(proved.rows, challenge.purpose, proved.user, Email, session, now) == Ok(Tables())
      ensures r.Err? ==>
        && Tables() == old(Tables())
        && var proved := ResolveEmail(old(Tables()), challenge.purpose, EmailKey(challenge.email), newUser, now);
           if proved.Err? then proved.error == r.error
           else FinishProof(proved.value.rows, challenge.purpose, proved.value.user, Email, session, now) == Err(r.error)
    {
      hide ResolveEmail, FinishProof;
      var saved := Tables();
      var user := ResolveEmailIdentity(challenge.purpose, EmailKey(challenge.email), newUser, now);
      if user.Err? {
        return Err(user.error);
      }
      r := CreateProvedSession(challenge.purpose, user.value, Email, session, now);
      if r.Err? {
        RollbackProof(saved);
      }
    }

    method VerifyEmailChallenge(command: VerifyCommand, newUser: Id, now: int) returns (r: Result<Id, Error>)
      modifies this`users, this`owners, this`methods, this`sessions, this`challenges, this`attempts
      ensures (Tables(), r) == Verify(old(Tables()), command, newUser, now)
    {
      hide ValidRequestKey, Addresses, LiveSession, Usable, ResolveEmail, FinishProof;
      if !ValidRequestKey(command.key) || (command.link && command.initiating.None?) {
        return Err(InvalidCode);
      }
      if command.challenge !in challenges {
        return Err(InvalidCode);
      }
      var challenge := challenges[command.challenge];
      if !Addresses(command, challenge.purpose) {
        return Err(InvalidCode);
      }
      var request := AttemptKey(command.challenge, command.key);
      if request in attempts {
        if attempts[request].digest != command.digest {
          return Err(IdempotencyConflict);
        }
        if !attempts[request].succeeded {
          return Err(InvalidCode);
        }
        if challenge.session.None? {
          return Err(DatabaseFailure);
        }
        if !LiveSession(Tables(), challenge.session.value, now) {
          return Err(Unauthenticated);
        }
        return Ok(challenge.session.value);
      }
      if !Usable(challenge, now) {
        return Err(InvalidCode);
      }
      if challenge.code != command.code {
        SpendAttempt(command);
        return Err(InvalidCode);
      }
      var completed := CompleteEmail(challenge, command.session, newUser, now);
      if completed.Err? {
        return Err(completed.error);
      }
      challenges := challenges[command.challenge := challenge.(session := Some(command.session))];
      attempts := attempts[request := Attempt(command.digest, true)];
      return Ok(command.session);
    }
  }
}
