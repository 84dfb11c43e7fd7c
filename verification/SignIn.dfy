/**
  Sign-in methods, Browser Sessions and email challenges: login,
  reauthentication, linking and unlinking as transactions over the rows. A
  transaction that fails leaves every row as it was, except that a wrong email
  code is recorded and spends an attempt.
 */
module SignIn {
  import opened Wrappers
  import opened Ids
  import opened Text

  datatype Method = Email | Google | GitHub

  /** The key a provider or a mailbox proves. */
  datatype Key = EmailKey(email: Bytes) | GoogleKey(issuer: Bytes, subject: Bytes) | GitHubKey(user: int)

  function MethodOf(key: Key): Method {
    match key
    case EmailKey(_) => Email
    case GoogleKey(_, _) => Google
    case GitHubKey(_) => GitHub
  }

  datatype UserMethod = UserMethod(user: Id, kind: Method)

  datatype Session = Session(user: Id, proof: Method, provedAt: int, expiresAt: int, revoked: bool)

  datatype UnlinkKey = UnlinkKey(session: Id, key: Bytes)

  datatype Unlink = Unlink(user: Id, kind: Method, digest: Bytes, replacement: Id)

  /** What a proof is for: signing in, or confirming or extending an existing Session. */
  datatype Purpose = Login | Reauthenticate(target: Id, initiating: Id) | Link(target: Id, initiating: Id)

  datatype ExternalStatus = Prepared | Exchanging | Succeeded | Ended

  datatype External = External(
    provider: Method,
    purpose: Purpose,
    status: ExternalStatus,
    callback: Bytes,
    expiresAt: int,
    session: Option<Id>)

  datatype Submission = SubmissionPrepared | SubmissionAccepted | SubmissionRejected | SubmissionUnknown

  datatype Challenge = Challenge(
    email: Bytes,
    code: Bytes,
    source: Bytes,
    payload: Bytes,
    key: Bytes,
    digest: Bytes,
    purpose: Purpose,
    submission: Submission,
    attempts: nat,
    createdAt: int,
    expiresAt: int,
    invalidated: bool,
    session: Option<Id>)

  datatype AttemptKey = AttemptKey(challenge: Id, key: Bytes)

  datatype Attempt = Attempt(digest: Bytes, succeeded: bool)

  /**
    `owners` is the union of the three identity tables by their primary keys and
    `methods` their unique index on the User; `byRequest` finds a challenge by
    its request key. A challenge is consumed once it names its Session.
   */
  datatype State = State(
    users: set<Id>,
    owners: map<Key, Id>,
    methods: map<UserMethod, Key>,
    sessions: map<Id, Session>,
    unlinks: map<UnlinkKey, Unlink>,
    externals: map<Id, External>,
    challenges: map<Id, Challenge>,
    byRequest: map<Bytes, Id>,
    attempts: map<AttemptKey, Attempt>)

  datatype Error =
    | Unauthenticated
    | IdempotencyConflict
    | RecentIdentityProofRequired
    | IdentityMethodNotLinked
    | IdentityMethodAlreadyLinked
    | IdentityMethodOccupied
    | LastIdentityMethod
    | ExternalLoginInvalid
    | ExternalLoginConflict
    | ExternalLoginUnavailable
    | InvalidChallenge
    | InvalidCode
    | EmailPayloadChanged
    | EmailAddressLimited
    | EmailSourceLimited
    | EmailResendDelayed
    | DatabaseFailure

  /** Durations on the database clock, in microseconds. */
  const SECOND := 1_000_000
  const PROOF_LIFETIME := 10 * 60 * SECOND
  const SESSION_LIFETIME := 30 * 24 * 60 * 60 * SECOND
  const CODE_LIFETIME := 5 * 60 * SECOND
  const RESEND_DELAY := 60 * SECOND
  const HOUR := 60 * 60 * SECOND
  const ATTEMPT_LIMIT := 5
  const EMAIL_LIMIT := 5
  const SOURCE_LIMIT := 20
  /** "https://accounts.google.com" */
  const GOOGLE_ISSUER: Bytes :=
    [104, 116, 116, 112, 115, 58, 47, 47, 97, 99, 99, 111, 117, 110, 116, 115, 46, 103, 111, 111, 103, 108, 101,
     46, 99, 111, 109]

  predicate ValidRequestKey(key: Bytes) {
    TrimSpace(key) != [] && |key| <= MAX_KEY
  }

  // ----- Sessions -----

  predicate Linked(s: State, user: Id, kind: Method) {
    UserMethod(user, kind) in s.methods
  }

  /** `CountIdentityMethods`. */
  function MethodCount(s: State, user: Id): nat {
    (if Linked(s, user, Email) then 1 else 0) + (if Linked(s, user, Google) then 1 else 0)
      + (if Linked(s, user, GitHub) then 1 else 0)
  }

  /** `loadIdentitySession`: a live Session of the User, recently proved when that is asked for. */
  function IdentitySession(s: State, user: Id, session: Id, recent: bool, now: int): (refused: Option<Error>)
    ensures refused.None? ==> session in s.sessions
  {
    if session !in s.sessions then Some(Unauthenticated)
    else
      var row := s.sessions[session];
      if row.user != user || row.revoked || row.expiresAt <= now then Some(Unauthenticated)
      else if recent && row.provedAt + PROOF_LIFETIME <= now then Some(RecentIdentityProofRequired)
      else None
  }

  predicate LiveSession(s: State, session: Id, now: int) {
    session in s.sessions && !s.sessions[session].revoked && now < s.sessions[session].expiresAt
  }

  /** `RevokeUserBrowserSessions`. */
  function RevokeAll(s: State, user: Id): State {
    s.(sessions := map id | id in s.sessions ::
      if s.sessions[id].user == user then s.sessions[id].(revoked := true) else s.sessions[id])
  }

  function NewSession(s: State, session: Id, user: Id, proof: Method, now: int): State {
    s.(sessions := s.sessions[session := Session(user, proof, now, now + SESSION_LIFETIME, false)])
  }

  // ----- Proving a kind -----

  /** A User and their first method are created together. */
  function CreateUser(s: State, user: Id, key: Key): Result<State, Error> {
    if user in s.users || UserMethod(user, MethodOf(key)) in s.methods then Err(DatabaseFailure)
    else Ok(LinkMethod(s.(users := s.users + {user}), user, key))
  }

  function LinkMethod(s: State, user: Id, key: Key): State {
    s.(owners := s.owners[key := user], methods := s.methods[UserMethod(user, MethodOf(key)) := key])
  }

  datatype Proved = Proved(rows: State, user: Id)

  /** `resolveGoogleIdentity` and `resolveGitHubIdentity`: who a proved external key speaks for. */
  function ResolveExternal(s: State, purpose: Purpose, key: Key, newUser: Id, now: int): Result<Proved, Error> {
    match purpose
    case Login => ResolveLogin(s, key, newUser)
    case Reauthenticate(user, initiating) =>
      if user !in s.users then Err(Unauthenticated)
      else if IdentitySession(s, user, initiating, false, now).Some?
      then Err(IdentitySession(s, user, initiating, false, now).value)
      else if key !in s.owners || s.owners[key] != user then Err(IdentityMethodNotLinked)
      else Ok(Proved(s, user))
    case Link(user, initiating) => ResolveLink(s, user, initiating, key, now)
  }

  /** The same three cases in `completeEmail…`, which looks at the owner before the Session when reauthenticating. */
  function ResolveEmail(s: State, purpose: Purpose, key: Key, newUser: Id, now: int): Result<Proved, Error> {
    match purpose
    case Login => ResolveLogin(s, key, newUser)
    case Reauthenticate(user, initiating) =>
      if key !in s.owners || s.owners[key] != user then Err(IdentityMethodNotLinked)
      else if user !in s.users then Err(Unauthenticated)
      else if IdentitySession(s, user, initiating, false, now).Some?
      then Err(IdentitySession(s, user, initiating, false, now).value)
      else Ok(Proved(s, user))
    case Link(user, initiating) => ResolveLink(s, user, initiating, key, now)
  }

  function ResolveLogin(s: State, key: Key, newUser: Id): Result<Proved, Error> {
    if key !in s.owners then
      match CreateUser(s, newUser, key)
      case Err(error) => Err(error)
      case Ok(t) => Ok(Proved(t, newUser))
    else if s.owners[key] !in s.users then Err(Unauthenticated)
    else Ok(Proved(s, s.owners[key]))
  }

  function ResolveLink(s: State, user: Id, initiating: Id, key: Key, now: int): Result<Proved, Error> {
    if user !in s.users then Err(Unauthenticated)
    else if IdentitySession(s, user, initiating, true, now).Some?
    then Err(IdentitySession(s, user, initiating, true, now).value)
    else if Linked(s, user, MethodOf(key)) then Err(IdentityMethodAlreadyLinked)
    else if key in s.owners then
      Err(if s.owners[key] == user then IdentityMethodAlreadyLinked else IdentityMethodOccupied)
    else Ok(Proved(LinkMethod(s, user, key), user))
  }

  /** The Session a proof leaves: it replaces the confirmed one, or all of them after a link. */
  function FinishProof(s: State, purpose: Purpose, user: Id, kind: Method, session: Id, now: int): Result<State, Error> {
    var revoked :=
      match purpose
      case Login => Some(s)
      case Reauthenticate(_, initiating) =>
        if initiating in s.sessions && !s.sessions[initiating].revoked
        then Some(s.(sessions := s.sessions[initiating := s.sessions[initiating].(revoked := true)])) else None
      case Link(_, _) => Some(RevokeAll(s, user));
    if revoked.None? then Err(Unauthenticated)
    else if session in revoked.value.sessions then Err(DatabaseFailure)
    else Ok(NewSession(revoked.value, session, user, kind, now))
  }

  // ----- External proofs -----

  predicate ValidExternalKey(key: Key) {
    match key
    case EmailKey(_) => false
    case GoogleKey(issuer, subject) => issuer == GOOGLE_ISSUER && TrimSpace(subject) != [] && |subject| <= 255
    case GitHubKey(user) => user > 0
  }

  datatype CompleteCommand = CompleteCommand(transaction: Id, callback: Bytes, key: Key, session: Id)

  /** `CompleteGoogleLogin` and `CompleteGitHubLogin`; the result is the Session's User. */
  function CompleteExternal(s: State, command: CompleteCommand, newUser: Id, now: int): (State, Result<Id, Error>) {
    if !ValidExternalKey(command.key) then (s, Err(ExternalLoginInvalid))
    else if command.transaction !in s.externals then (s, Err(ExternalLoginInvalid))
    else
      var current := s.externals[command.transaction];
      var kind := MethodOf(command.key);
      if current.provider != kind || !current.status.Exchanging? || current.callback != command.callback
      then (s, Err(ExternalLoginConflict))
      else if current.expiresAt <= now then (s, Err(ExternalLoginUnavailable))
      else
        match ResolveExternal(s, current.purpose, command.key, newUser, now)
        case Err(error) => (s, Err(error))
        case Ok(Proved(t, user)) =>
          match FinishProof(t, current.purpose, user, kind, command.session, now)
          case Err(error) => (s, Err(error))
          case Ok(u) =>
            (u.(externals := u.externals[command.transaction :=
                  current.(status := Succeeded, session := Some(command.session))]), Ok(user))
  }

  // ----- Unlinking -----

  /** `observed` is the method key an earlier, unlocked read returned. */
  datatype UnlinkCommand = UnlinkCommand(
    session: Id,
    replacement: Id,
    kind: Method,
    key: Bytes,
    digest: Bytes,
    observed: Option<Key>)

  function UnlinkMethod(s: State, command: UnlinkCommand, now: int): (State, Result<Id, Error>) {
    if !ValidRequestKey(command.key) then (s, Err(Unauthenticated))
    else
      var request := UnlinkKey(command.session, command.key);
      if request in s.unlinks then
        var replay := s.unlinks[request];
        if replay.kind != command.kind || replay.digest != command.digest then (s, Err(IdempotencyConflict))
        else if !LiveSession(s, replay.replacement, now) then (s, Err(Unauthenticated))
        else (s, Ok(replay.replacement))
      else if command.session !in s.sessions then (s, Err(Unauthenticated))
      else
        var user := s.sessions[command.session].user;
        match UnlinkRefused(s, command, user, now)
        case Some(error) => (s, Err(error))
        case None => (Unlinked(s, command, user, now), Ok(command.replacement))
  }

  /** The guards of an unlink that is not a replay, in the order they are checked. */
  function UnlinkRefused(s: State, command: UnlinkCommand, user: Id, now: int): (refused: Option<Error>)
    ensures refused.None? ==> command.session in s.sessions && Linked(s, user, command.kind)
  {
    var kind := UserMethod(user, command.kind);
    if command.observed.None? || command.observed.value !in s.owners || s.owners[command.observed.value] != user
    then Some(IdentityMethodNotLinked)
    else if user !in s.users then Some(Unauthenticated)
    else if IdentitySession(s, user, command.session, true, now).Some?
    then IdentitySession(s, user, command.session, true, now)
    else if kind !in s.methods || s.methods[kind] != command.observed.value then Some(IdentityMethodNotLinked)
    else if MethodCount(s, user) <= 1 then Some(LastIdentityMethod)
    else if s.sessions[command.session].proof == command.kind then Some(RecentIdentityProofRequired)
    else if command.replacement in s.sessions then Some(DatabaseFailure)
    else None
  }

  function Unlinked(s: State, command: UnlinkCommand, user: Id, now: int): State
    requires command.session in s.sessions && Linked(s, user, command.kind)
  {
    var kind := UserMethod(user, command.kind);
    var proof := s.sessions[command.session].proof;
    var removed := s.(owners := s.owners - {s.methods[kind]}, methods := s.methods - {kind});
    var t := NewSession(RevokeAll(removed, user), command.replacement, user, proof, now);
    t.(unlinks := t.unlinks[UnlinkKey(command.session, command.key) :=
         Unlink(user, command.kind, command.digest, command.replacement)])
  }

  // ----- Email challenges -----

  datatype PrepareCommand = PrepareCommand(
    challenge: Id,
    purpose: Purpose,
    email: Bytes,
    code: Bytes,
    source: Bytes,
    payload: Bytes,
    key: Bytes,
    digest: Bytes)

  function RecentForEmail(challenges: map<Id, Challenge>, email: Bytes, now: int): set<Id> {
    set c | c in challenges && challenges[c].email == email && challenges[c].createdAt > now - HOUR
  }

  function RecentForSource(challenges: map<Id, Challenge>, source: Bytes, now: int): set<Id> {
    set c | c in challenges && challenges[c].source == source && challenges[c].createdAt > now - HOUR
  }

  /** The latest challenge for the Email is less than the resend delay old. */
  predicate TooSoon(challenges: map<Id, Challenge>, email: Bytes, now: int) {
    exists c :: c in challenges && challenges[c].email == email && challenges[c].createdAt + RESEND_DELAY > now
  }

  predicate Current(challenge: Challenge) {
    !challenge.invalidated && challenge.session.None?
  }

  /** `PrepareEmailChallenge`; the result is the challenge's identity. */
  function Prepare(s: State, command: PrepareCommand, now: int): (State, Result<Id, Error>) {
    if command.email == [] || !ValidRequestKey(command.key) then (s, Err(InvalidChallenge))
    else if ProofTargetRefused(s, command.purpose, command.email, now).Some?
    then (s, Err(ProofTargetRefused(s, command.purpose, command.email, now).value))
    else if command.key in s.byRequest then
      var existing := s.byRequest[command.key];
      if existing !in s.challenges then (s, Err(DatabaseFailure))
      else if s.challenges[existing].email != command.email || s.challenges[existing].digest != command.digest
      then (s, Err(IdempotencyConflict))
      else if s.challenges[existing].payload != command.payload then (s, Err(EmailPayloadChanged))
      else (s, Ok(existing))
    else if |RecentForEmail(s.challenges, command.email, now)| >= EMAIL_LIMIT then (s, Err(EmailAddressLimited))
    else if |RecentForSource(s.challenges, command.source, now)| >= SOURCE_LIMIT then (s, Err(EmailSourceLimited))
    else if TooSoon(s.challenges, command.email, now) then (s, Err(EmailResendDelayed))
    else if command.challenge in s.challenges then (s, Err(DatabaseFailure))
    else
      (s.(challenges := Invalidated(s.challenges, command.email)[command.challenge := Issued(command, now)],
          byRequest := s.byRequest[command.key := command.challenge]),
       Ok(command.challenge))
  }

  /** A proof for an existing Session needs that Session, and a reauthentication the linked address. */
  function ProofTargetRefused(s: State, purpose: Purpose, email: Bytes, now: int): Option<Error> {
    match purpose
    case Login => None
    case Reauthenticate(user, initiating) =>
      if user !in s.users then Some(Unauthenticated)
      else if IdentitySession(s, user, initiating, false, now).Some? then IdentitySession(s, user, initiating, false, now)
      else if UserMethod(user, Email) !in s.methods || s.methods[UserMethod(user, Email)] != EmailKey(email)
      then Some(IdentityMethodNotLinked)
      else None
    case Link(user, initiating) =>
      if user !in s.users then Some(Unauthenticated)
      else IdentitySession(s, user, initiating, true, now)
  }

  /** `InvalidateCurrentEmailChallenges`. */
  function Invalidated(challenges: map<Id, Challenge>, email: Bytes): map<Id, Challenge> {
    map c | c in challenges ::
      if challenges[c].email == email && Current(challenges[c]) then challenges[c].(invalidated := true) else challenges[c]
  }

  function Issued(command: PrepareCommand, now: int): Challenge {
    Challenge(command.email, command.code, command.source, command.payload, command.key, command.digest, command.purpose,
              SubmissionPrepared, 0, now, now + CODE_LIFETIME, false, None)
  }

  /** `RecordEmailSubmission`: an accepted or rejected submission is final. */
  function RecordSubmission(s: State, challenge: Id, payload: Bytes, submission: Submission): (State, Result<Submission, Error>) {
    if submission.SubmissionPrepared? then (s, Err(InvalidChallenge))
    else if challenge !in s.challenges then (s, Err(InvalidCode))
    else
      var row := s.challenges[challenge];
      if row.payload != payload then (s, Err(EmailPayloadChanged))
      else if row.submission.SubmissionAccepted? || row.submission.SubmissionRejected? then (s, Ok(row.submission))
      else (s.(challenges := s.challenges[challenge := row.(submission := submission)]), Ok(submission))
  }

  datatype VerifyCommand = VerifyCommand(
    challenge: Id,
    link: bool,
    initiating: Option<Id>,
    session: Id,
    key: Bytes,
    code: Bytes,
    digest: Bytes)

  /** The purpose and Session a verification names: none for login, otherwise with the initiating Session. */
  predicate Addresses(command: VerifyCommand, purpose: Purpose) {
    match purpose
    case Login => command.initiating.None?
    case Reauthenticate(_, initiating) => command.initiating == Some(initiating) && !command.link
    case Link(_, initiating) => command.initiating == Some(initiating) && command.link
  }

  predicate Usable(challenge: Challenge, now: int) {
    Current(challenge) && now < challenge.expiresAt && challenge.attempts < ATTEMPT_LIMIT
      && !challenge.submission.SubmissionRejected?
  }

  /** `VerifyEmailChallenge`; the result is the Session. */
  function Verify(s: State, command: VerifyCommand, newUser: Id, now: int): (State, Result<Id, Error>) {
    if !ValidRequestKey(command.key) || (command.link && command.initiating.None?) then (s, Err(InvalidCode))
    else if command.challenge !in s.challenges then (s, Err(InvalidCode))
    else
      var challenge := s.challenges[command.challenge];
      var request := AttemptKey(command.challenge, command.key);
      if !Addresses(command, challenge.purpose) then (s, Err(InvalidCode))
      else if request in s.attempts then
        if s.attempts[request].digest != command.digest then (s, Err(IdempotencyConflict))
        else if !s.attempts[request].succeeded then (s, Err(InvalidCode))
        else if challenge.session.None? then (s, Err(DatabaseFailure))
        else if !LiveSession(s, challenge.session.value, now) then (s, Err(Unauthenticated))
        else (s, Ok(challenge.session.value))
      else if !Usable(challenge, now) then (s, Err(InvalidCode))
      else if challenge.code != command.code then
        (s.(attempts := s.attempts[request := Attempt(command.digest, false)],
            challenges := s.challenges[command.challenge := challenge.(attempts := challenge.attempts + 1)]),
         Err(InvalidCode))
      else
        match ResolveEmail(s, challenge.purpose, EmailKey(challenge.email), newUser, now)
        case Err(error) => (s, Err(error))
        case Ok(Proved(t, user)) =>
          match FinishProof(t, challenge.purpose, user, Email, command.session, now)
          case Err(error) => (s, Err(error))
          case Ok(u) =>
            (u.(challenges := u.challenges[command.challenge := challenge.(session := Some(command.session))],
                attempts := u.attempts[request := Attempt(command.digest, true)]),
             Ok(command.session))
  }

  // ----- Runs -----

  datatype Op =
    | OpExternals(externals: map<Id, External>)
    | OpComplete(complete: CompleteCommand, newUser: Id, completedAt: int)
    | OpUnlink(unlink: UnlinkCommand, unlinkedAt: int)
    | OpPrepare(prepare: PrepareCommand, preparedAt: int)
    | OpSubmission(challenge: Id, payload: Bytes, submission: Submission)
    | OpVerify(verify: VerifyCommand, verifiedUser: Id, verifiedAt: int)
    | OpSignOut(session: Id)

  function Apply(s: State, op: Op): State {
    match op
    case OpExternals(externals) => s.(externals := externals)
    case OpComplete(complete, newUser, completedAt) => CompleteExternal(s, complete, newUser, completedAt).0
    case OpUnlink(unlink, unlinkedAt) => UnlinkMethod(s, unlink, unlinkedAt).0
    case OpPrepare(prepare, preparedAt) => Prepare(s, prepare, preparedAt).0
    case OpSubmission(challenge, payload, submission) => RecordSubmission(s, challenge, payload, submission).0
    case OpVerify(verify, verifiedUser, verifiedAt) => Verify(s, verify, verifiedUser, verifiedAt).0
    case OpSignOut(session) =>
      if session in s.sessions then s.(sessions := s.sessions[session := s.sessions[session].(revoked := true)]) else s
  }

  function Run(s: State, ops: seq<Op>): State
    decreases |ops|
  {
    if ops == [] then s else Apply(Run(s, ops[..|ops| - 1]), ops[|ops| - 1])
  }

  const EMPTY := State({}, map[], map[], map[], map[], map[], map[], map[], map[])
}
