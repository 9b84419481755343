/**
 * The account endpoints: `signup` validates and inserts a user (and, for an
 * NGO account, its NGO record), `login` checks credentials and stores the
 * session user, `logout` destroys the session, `me` reports it, and the
 * password-reset endpoints validate and delegate to the user model.
 */
module AuthController {
  import opened Wrappers
  import opened Backend

  /** A row of the users table. */
  datatype UserRow = UserRow(userId: int, username: Option<string>, email: string, pwHash: string, userType: Option<string>)

  /** A row of the `ngo` table as `createNGO` inserts it. */
  datatype NgoRecord = NgoRecord(
    ngoId: int, name: Option<string>, description: Option<string>, email: Option<string>,
    website: Option<string>, phone: Option<string>, userId: int)

  /** The fields `signup` reads from the body; `isNGO` by its truthiness. */
  datatype SignupBody = SignupBody(
    username: Option<string>, email: Option<string>, password: Option<string>, passwordRep: Option<string>,
    isNgo: bool, ngoName: Option<string>, ngoEmail: Option<string>, ngoWebsite: Option<string>,
    ngoPhone: Option<string>, ngoDescription: Option<string>)

  /** How one INSERT ended. */
  datatype InsertOutcome = Inserted | Duplicate | Failed

  datatype SignupReply =
    | SignupRejected(message: string)  // 400
    | Registered(message: string)      // 201
    | SignupError                      // 500 'Error registering user'
  {
    function Status(): int {
      match this
      case SignupRejected(_) => 400
      case Registered(_) => 201
      case SignupError => 500
    }
  }

  const AllFieldsRequired := "All fields are required"
  const PasswordsDiffer := "Passwords do not match"
  const EmailInUse := "Email already in use"

  function RegisteredMessage(isNgo: bool): string {
    if isNgo then "User and NGO registered successfully" else "User registered successfully"
  }

  /** The two checks `signup` makes before touching the database. */
  function CheckSignup(b: SignupBody): (r: Option<SignupReply>)
    ensures r == Some(SignupRejected(AllFieldsRequired)) <==>
      !Truthy(b.email) || !Truthy(b.password) || !Truthy(b.passwordRep)
    ensures r == Some(SignupRejected(PasswordsDiffer)) <==>
      Truthy(b.email) && Truthy(b.password) && Truthy(b.passwordRep) && b.password != b.passwordRep
    ensures r.None? <==> Truthy(b.email) && Truthy(b.password) && b.password == b.passwordRep
  {
    if !Truthy(b.email) || !Truthy(b.password) || !Truthy(b.passwordRep) then Some(SignupRejected(AllFieldsRequired))
    else if b.password != b.passwordRep then Some(SignupRejected(PasswordsDiffer))
    else None
  }

  predicate EmailTaken(users: seq<UserRow>, email: string) {
    exists i :: 0 <= i < |users| && users[i].email == email
  }

  /** `findUserByEmail`: the row with that email, if any. */
  function FindUser(users: seq<UserRow>, email: string): (r: Option<UserRow>)
    ensures r.None? <==> !EmailTaken(users, email)
    ensures r.Some? ==> r.value in users && r.value.email == email
  {
    if users == [] then None
    else if users[0].email == email then Some(users[0])
    else
      var r := FindUser(users[1..], email);
      assert r.Some? ==> r.value in users;
      assert EmailTaken(users[1..], email) ==> EmailTaken(users, email) by {
        if EmailTaken(users[1..], email) {
          var i :| 0 <= i < |users[1..]| && users[1..][i].email == email;
          assert users[i + 1].email == email;
        }
      }
      r
  }

  datatype LoginReply =
    | MissingCredentials        // 400 'All fields are required'
    | InvalidCredentials        // 401 'Invalid credentials'
    | LoggedIn(userType: Option<string>)  // 200 'Login successful' with the user's type
    | LoginError                // 500 'Error logging in'
  {
    function Status(): int {
      match this
      case MissingCredentials => 400
      case InvalidCredentials => 401
      case LoggedIn(_) => 200
      case LoginError => 500
    }
  }

  /** The body of `me`: exactly the four session fields, or 401 'Not authenticated'. */
  datatype MeReply = Me(id: int, name: Option<string>, email: Option<string>, userType: Option<string>) | NotAuthenticated {
    function Status(): int { if Me? then 200 else 401 }
  }

  function MeOf(session: Option<SessionUser>): (r: MeReply)
    ensures r.NotAuthenticated? <==> session.None?
    ensures r.Me? ==> SessionUser(r.id, r.name, r.email, r.userType) == session.value
  {
    match session
    case None => NotAuthenticated
    case Some(u) => Me(u.id, u.name, u.email, u.userType)
  }

  /**
   * What `updatePassword` resolved to: the result object, whose `status` and
   * (possibly absent) `error` the controller reads, or a throw with its
   * message. The user model is not part of this model; a result without a
   * truthy `error` is taken to mean that it stored the new hash.
   */
  datatype UpdateOutcome =
    | UpdateResult(status: int, error: Option<string>)
    | UpdateThrew(message: string)

  datatype ResetReply =
    | ResetRejected(message: string)            // 400
    | ResetRefused(status: int, message: string) // the model's status and error
    | PasswordUpdated                          // 200 'Password updated successfully'
    | ResetError(error: string)                // 500 'Error processing your request', with the thrown message

  const RepeatPassword := "Repeat the password"

  /** The two checks `resetPassword` makes before calling the user model. */
  function CheckReset(password: Option<string>, passwordRep: Option<string>): (r: Option<ResetReply>)
    ensures r == Some(ResetRejected(RepeatPassword)) <==> !Truthy(password) || !Truthy(passwordRep)
    ensures r == Some(ResetRejected(PasswordsDiffer)) <==> Truthy(password) && Truthy(passwordRep) && password != passwordRep
    ensures r.None? <==> Truthy(password) && password == passwordRep
  {
    if !Truthy(password) || !Truthy(passwordRep) then Some(ResetRejected(RepeatPassword))
    else if password != passwordRep then Some(ResetRejected(PasswordsDiffer))
    else None
  }

  /**
   * The reply of `resetPassword`: the two checks, then a truthy
   * `result.error` is sent with the result's status, any other result is
   * answered 200, and a throw is a 500.
   */
  function ResetReplyOf(password: Option<string>, passwordRep: Option<string>, outcome: UpdateOutcome): (r: ResetReply)
    ensures r.ResetRejected? <==> CheckReset(password, passwordRep).Some?
    ensures r.ResetRejected? ==> r == CheckReset(password, passwordRep).value
    ensures r == PasswordUpdated <==>
      CheckReset(password, passwordRep).None? && outcome.UpdateResult? && !Truthy(outcome.error)
    ensures r.ResetRefused? <==>
      CheckReset(password, passwordRep).None? && outcome.UpdateResult? && Truthy(outcome.error)
    ensures r.ResetRefused? ==> r.status == outcome.status && r.message == outcome.error.value
    ensures r.ResetError? <==> CheckReset(password, passwordRep).None? && outcome.UpdateThrew?
    ensures r.ResetError? ==> r.error == outcome.message
  {
    var check := CheckReset(password, passwordRep);
    if check.Some? then check.value
    else match outcome
      case UpdateResult(status, error) =>
        if Truthy(error) then ResetRefused(status, error.value) else PasswordUpdated
      case UpdateThrew(message) => ResetError(message)
  }

  /** A result whose `error` is the empty string is a success: `''` is falsy. */
  lemma EmptyUpdateErrorIsSuccess(password: string, status: int)
    requires password != ""
    ensures ResetReplyOf(Some(password), Some(password), UpdateResult(status, Some(""))) == PasswordUpdated
  {
  }

  /**
   * What `findByToken` resolved to: the result object, whose `status`,
   * `error`, `user_id` and `email` the controller reads (the last three may be
   * absent), or a throw with its message. The user model is not part of this
   * model, so any combination of fields is possible.
   */
  datatype TokenLookup =
    | TokenResult(status: int, error: Option<string>, userId: Option<int>, email: Option<string>)
    | TokenThrew(message: string)

  datatype TokenReply =
    | UserForToken(status: int, userId: Option<int>, email: Option<string>) // `{user_id, email}`
    | TokenMessage(status: int, message: string)                             // `{message: result.error}`
    | TokenError(error: string)   // 500 'Error processing your request', with the thrown message
  {
    function Status(): int {
      match this
      case UserForToken(status, _, _) => status
      case TokenMessage(status, _) => status
      case TokenError(_) => 500
    }
  }

  /**
   * `findUserByToken`: a truthy `result.error` is sent as the message, any
   * other result as the user's id and email, both under the result's own
   * status; a throw is a 500.
   */
  function FindUserByToken(lookup: TokenLookup): (r: TokenReply)
    ensures r.UserForToken? <==> lookup.TokenResult? && !Truthy(lookup.error)
    ensures r.TokenMessage? <==> lookup.TokenResult? && Truthy(lookup.error)
    ensures r.TokenError? <==> lookup.TokenThrew?
    ensures r.UserForToken? ==> r.userId == lookup.userId && r.email == lookup.email
    ensures r.TokenMessage? ==> r.message == lookup.error.value
    ensures r.TokenError? ==> r.error == lookup.message
  {
    match lookup
    case TokenResult(status, error, userId, email) =>
      if Truthy(error) then TokenMessage(status, error.value) else UserForToken(status, userId, email)
    case TokenThrew(message) => TokenError(message)
  }

  /** Unless the lookup throws, the reply carries the status the user model chose, whatever it is. */
  lemma TokenStatusPassedOn(lookup: TokenLookup)
    requires lookup.TokenResult?
    ensures FindUserByToken(lookup).Status() == lookup.status
  {
  }

  /**
   * An empty `error` string is falsy: a result that carries one falls through
   * to the user branch and is answered with its status and whatever id and
   * email it holds, even a failure status.
   */
  lemma EmptyErrorFallsThrough(status: int, userId: Option<int>, email: Option<string>)
    ensures FindUserByToken(TokenResult(status, Some(""), userId, email)) == UserForToken(status, userId, email)
  {
  }

  /** The users and NGO tables, their counters, and the session of the client making the requests. */
  class AuthStore {
    var users: seq<UserRow>
    var ngos: seq<NgoRecord>
    var session: Option<SessionUser>
    var nextUserId: int
    var nextNgoId: int

    /** Emails are unique (the insert refuses a second one) and ids are below their counters. */
    ghost predicate Valid()
      reads this
    {
      (forall i, j :: 0 <= i < j < |users| ==> users[i].email != users[j].email && users[i].userId != users[j].userId)
      && (forall i :: 0 <= i < |users| ==> users[i].userId < nextUserId)
      && (forall i :: 0 <= i < |ngos| ==> ngos[i].ngoId < nextNgoId)
    }

    constructor ()
      ensures Valid() && users == [] && ngos == [] && session == None
    {
      users, ngos, session := [], [], None;
      nextUserId, nextNgoId := 1, 1;
    }

    /**
     * `signup`. The stored hash and the stored type come from the user model
     * (not part of this model), so they are parameters; so is how the NGO
     * insert ends. A user row, once inserted, stays even if the NGO insert
     * fails. `userFault` is a database error of the user INSERT other than
     * a duplicate key; it gives the 500 whether or not the email is taken.
     */
    method Signup(b: SignupBody, hash: string, storedType: Option<string>, ngoOutcome: InsertOutcome, userFault: bool)
      returns (r: SignupReply)
      requires Valid()
      modifies this
      ensures Valid() && session == old(session)
      ensures CheckSignup(b).Some? ==> r == CheckSignup(b).value && users == old(users) && ngos == old(ngos)
      ensures CheckSignup(b).None? && userFault ==>
        r == SignupError && users == old(users) && ngos == old(ngos)
      ensures CheckSignup(b).None? && !userFault && EmailTaken(old(users), b.email.value) ==>
        r == SignupRejected(EmailInUse) && users == old(users) && ngos == old(ngos)
      ensures CheckSignup(b).None? && !EmailTaken(old(users), b.email.value) && !userFault ==>
        users == old(users) + [UserRow(old(nextUserId), b.username, b.email.value, hash, storedType)]
      ensures CheckSignup(b).None? && !EmailTaken(old(users), b.email.value) && !userFault && b.isNgo && ngoOutcome == Inserted ==>
        ngos == old(ngos) + [NgoRecord(old(nextNgoId), b.ngoName, b.ngoDescription, b.ngoEmail, b.ngoWebsite, b.ngoPhone, old(nextUserId))]
      ensures !(CheckSignup(b).None? && !EmailTaken(old(users), b.email.value) && !userFault && b.isNgo && ngoOutcome == Inserted) ==>
        ngos == old(ngos)
      ensures r.Registered? <==>
        CheckSignup(b).None? && !EmailTaken(old(users), b.email.value) && !userFault && (!b.isNgo || ngoOutcome == Inserted)
      ensures r.Registered? ==> r.message == RegisteredMessage(b.isNgo)
      ensures CheckSignup(b).None? && !EmailTaken(old(users), b.email.value) && !userFault && b.isNgo && ngoOutcome != Inserted ==>
        r == (if ngoOutcome == Duplicate then SignupRejected(EmailInUse) else SignupError)
    {
      var check := CheckSignup(b);
      if check.Some? {
        return check.value;
      }
      var email := b.email.value;
      if userFault {
        return SignupError;
      }
      if EmailTaken(users, email) {
        return SignupRejected(EmailInUse);
      }
      var userId := nextUserId;
      users := users + [UserRow(userId, b.username, email, hash, storedType)];
      nextUserId := nextUserId + 1;
      if b.isNgo {
        match ngoOutcome {
          case Duplicate =>
            return SignupRejected(EmailInUse);
          case Failed =>
            return SignupError;
          case Inserted =>
            ngos := ngos + [NgoRecord(nextNgoId, b.ngoName, b.ngoDescription, b.ngoEmail, b.ngoWebsite, b.ngoPhone, userId)];
            nextNgoId := nextNgoId + 1;
        }
      }
      r := Registered(RegisteredMessage(b.isNgo));
    }

    /**
     * `login`. `compare` is bcrypt's check of a password against a stored
     * hash; `fault` is a failed lookup.
     */
    method Login(email: Option<string>, password: Option<string>, compare: (string, string) -> bool, fault: bool)
      returns (r: LoginReply)
      requires Valid()
      modifies this
      ensures Valid() && users == old(users) && ngos == old(ngos)
      ensures Truthy(email) && Truthy(password) && fault ==> r == LoginError
      ensures !(Truthy(email) && Truthy(password) && fault) ==> r == LoginOutcome(users, email, password, compare)
      ensures r.LoggedIn? ==>
        var u := FindUser(users, email.value).value;
        session == Some(SessionUser(u.userId, u.username, Some(u.email), u.userType)) && r.userType == u.userType
      ensures !r.LoggedIn? ==> session == old(session)
    {
      if !Truthy(email) || !Truthy(password) {
        return MissingCredentials;
      }
      if fault {
        return LoginError;
      }
      var user := FindUser(users, email.value);
      if user.None? {
        return InvalidCredentials;
      }
      if !compare(password.value, user.value.pwHash) {
        return InvalidCredentials;
      }
      var u := user.value;
      session := Some(SessionUser(u.userId, u.username, Some(u.email), u.userType));
      r := LoggedIn(u.userType);
    }

    /** `logout`: the session is destroyed and the reply is always 200 'Logout successful'. */
    method Logout() returns (status: int)
      requires Valid()
      modifies this
      ensures Valid() && session == None && status == 200
      ensures users == old(users) && ngos == old(ngos)
    {
      session := None;
      status := 200;
    }

    /**
     * `resetPassword`. The new hash is what the user model stores on
     * success; it replaces the hash of the row with that id.
     */
    method ResetPassword(userId: int, password: Option<string>, passwordRep: Option<string>, newHash: string, outcome: UpdateOutcome)
      returns (r: ResetReply)
      requires Valid()
      modifies this
      ensures Valid() && session == old(session) && ngos == old(ngos)
      ensures r == ResetReplyOf(password, passwordRep, outcome)
      ensures r == PasswordUpdated ==>
        |users| == |old(users)|
        && forall i :: 0 <= i < |users| ==>
             users[i] == if old(users)[i].userId == userId then old(users)[i].(pwHash := newHash) else old(users)[i]
      ensures r != PasswordUpdated ==> users == old(users)
    {
      var check := CheckReset(password, passwordRep);
      if check.Some? {
        return check.value;
      }
      match outcome {
        case UpdateThrew(message) =>
          return ResetError(message);
        case UpdateResult(status, error) =>
          if Truthy(error) {
            return ResetRefused(status, error.value);
          }
          users := SetHash(users, userId, newHash);
          r := PasswordUpdated;
      }
    }
  }

  /** The users table with the hash of user `id` replaced. */
  function SetHash(users: seq<UserRow>, id: int, hash: string): (r: seq<UserRow>)
    ensures |r| == |users|
    ensures forall i :: 0 <= i < |r| ==> r[i] == if users[i].userId == id then users[i].(pwHash := hash) else users[i]
  {
    if users == [] then []
    else [if users[0].userId == id then users[0].(pwHash := hash) else users[0]] + SetHash(users[1..], id, hash)
  }

  /** The reply `login` gives for a table, without a database fault. */
  function LoginOutcome(users: seq<UserRow>, email: Option<string>, password: Option<string>, compare: (string, string) -> bool): (r: LoginReply)
    ensures r == MissingCredentials <==> !Truthy(email) || !Truthy(password)
    ensures r == InvalidCredentials <==>
      Truthy(email) && Truthy(password)
      && (FindUser(users, email.value).None? || !compare(password.value, FindUser(users, email.value).value.pwHash))
    ensures r.LoggedIn? <==>
      Truthy(email) && Truthy(password)
      && FindUser(users, email.value).Some? && compare(password.value, FindUser(users, email.value).value.pwHash)
    ensures r.LoggedIn? ==> r.userType == FindUser(users, email.value).value.userType
  {
    if !Truthy(email) || !Truthy(password) then MissingCredentials
    else
      match FindUser(users, email.value)
      case None => InvalidCredentials
      case Some(u) => if compare(password.value, u.pwHash) then LoggedIn(u.userType) else InvalidCredentials
  }

  /** An unknown email and a wrong password cannot be told apart from the reply. */
  lemma UnknownEmailLooksLikeWrongPassword(users: seq<UserRow>, email: string, password: string, compare: (string, string) -> bool)
    requires email != "" && password != ""
    requires FindUser(users, email).None? || !compare(password, FindUser(users, email).value.pwHash)
    ensures LoginOutcome(users, Some(email), Some(password), compare) == InvalidCredentials
  {
  }
}
