/** The handlers of `src/routes/userRoutes.js`: registration behind the
    bearer-token guard, the user login and logout on the session, the
    session check, and update / delete of a user behind the session guard.
    As in `CompanyRoutes`, each handler is a function giving the response and
    the new `users` collection; the `Handle...` methods and the session
    methods perform the same steps in place. */
module UserRoutes {
  import opened Common
  import opened UserModel
  import opened CompanyModel
  import opened Http
  import opened Jwt
  import opened Store
  import CompanySessionGuard
  import TokenGuard

  /** A handler's answer together with the `users` collection it leaves. */
  datatype UserChange = UserChange(response: Response, users: seq<UserDoc>)

  // ---------------------------------------------------------------- POST /:companyID/users/register

  const RegisterForbiddenMessage: string := "Unauthorized: You can only add users to your own company"
  const UserExistsInCompanyMessage: string := "User already exists in this company"
  const RegisteredMessage: string := "User registered successfully!"

  /** The request body fields the register route reads. */
  datatype RegisterForm = RegisterForm(
    name: Option<string>, email: string, password: Option<string>,
    role: Option<string>, l1Team: Option<string>, l2Team: Option<string>)

  /** `new User({ name, email, company, role, l1Team, l2Team })`: the company
      is the token's, not the body's, and the role default applies. */
  function DraftOf(f: RegisterForm, company: Id): Draft {
    Draft(f.name, f.email, company, RoleOrDefault(f.role), f.l1Team, f.l2Team)
  }

  /** `User.findOne({ email, company })`. */
  function FindInCompany(users: seq<UserDoc>, email: string, company: Id): (r: Option<UserDoc>)
    ensures r.Some? ==> r.value in users && r.value.email == email && r.value.company == company
    ensures r.None? <==> forall u :: u in users ==> !(u.email == email && u.company == company)
  {
    match FirstIndex(users, (u: UserDoc) => u.email == email && u.company == company)
    case None => None
    case Some(i) => Some(users[i])
  }

  /** What the authentication plugin's `register` does with a draft. */
  datatype Registration = Registered(user: UserDoc) | Refused(cause: LibraryError)

  /** The plugin's `register(user, password)`, in its order: a missing username
      (the email), then a username taken by ANY user, then a missing password;
      then the credential `h.hash` is set and the save runs the validators. */
  function PluginRegister(d: Draft, password: Option<string>, users: seq<UserDoc>, teams: Teams,
                          h: Hasher, id: Id): (r: Registration)
    ensures d.email == "" ==> r == Refused(MissingUsername)
    ensures d.email != "" && FindByUsername(users, d.email).Some? ==> r == Refused(UserExists)
    ensures d.email != "" && FindByUsername(users, d.email).None? && !Truthy(password) ==>
      r == Refused(MissingPassword)
    ensures d.email != "" && FindByUsername(users, d.email).None? && Truthy(password) && Violations(d, teams) != {} ==>
      r == Refused(ValidationFailed(Violations(d, teams)))
    ensures d.email != "" && FindByUsername(users, d.email).None? && Truthy(password) && Violations(d, teams) == {} ==>
      r.Registered?
    ensures r.Registered? ==>
      && r.user == Saved(d, id, h.hash(password.value))
      && ValidUser(r.user, teams)
      && forall u :: u in users ==> u.email != r.user.email
  {
    if d.email == "" then Refused(MissingUsername)
    else if FindByUsername(users, d.email).Some? then Refused(UserExists)
    else if !Truthy(password) then Refused(MissingPassword)
    else if Violations(d, teams) != {} then Refused(ValidationFailed(Violations(d, teams)))
    else
      SaveValidates(d, teams, id, h.hash(password.value));
      Registered(Saved(d, id, h.hash(password.value)))
  }

  /** The register handler, given the `req.companyID` the token guard set. */
  function Register(reqCompany: Option<Id>, path: Id, f: RegisterForm, users: seq<UserDoc>, teams: Teams,
                    h: Hasher, id: Id): (r: UserChange)
    ensures r.response.status in {201, 400, 403, 500}
    // the identity check comes first, before any lookup or insert
    ensures r.response.status == 403 <==> reqCompany != Some(path)
    ensures r.response.status == 403 ==> r == UserChange(Response(403, ErrorBody(RegisterForbiddenMessage)), users)
    ensures r.response.status == 400 <==> reqCompany == Some(path) && FindInCompany(users, f.email, path).Some?
    ensures r.response.status == 400 ==> r == UserChange(Response(400, ErrorBody(UserExistsInCompanyMessage)), users)
    ensures r.response.status == 500 <==>
      reqCompany == Some(path) && FindInCompany(users, f.email, path).None?
      && PluginRegister(DraftOf(f, path), f.password, users, teams, h, id).Refused?
    ensures r.response.status == 500 ==>
      r == UserChange(Response(500, LibraryErrorBody(PluginRegister(DraftOf(f, path), f.password, users, teams, h, id).cause)), users)
    // a matching token, an email no user holds, a password and a valid draft: registered
    ensures r.response.status == 201 <==>
      && reqCompany == Some(path) && f.email != "" && FindByUsername(users, f.email).None?
      && Truthy(f.password) && Violations(DraftOf(f, path), teams) == {}
    ensures r.response.status == 201 ==>
      && r.response.body.RegisteredBody?
      && r.response.body.message == RegisteredMessage
      && var u := r.response.body.created;
      && r.users == users + [u]
      && u == Saved(DraftOf(f, path), id, h.hash(f.password.value))
      && u.company == path
      && ValidUser(u, teams)
    ensures UserIdsUnique(users) && EmailsUnique(users) && (forall u :: u in users ==> u.id != id) ==>
      UserIdsUnique(r.users) && EmailsUnique(r.users)
  {
    if reqCompany != Some(path) then UserChange(Response(403, ErrorBody(RegisterForbiddenMessage)), users)
    else if FindInCompany(users, f.email, path).Some? then UserChange(Response(400, ErrorBody(UserExistsInCompanyMessage)), users)
    else match PluginRegister(DraftOf(f, path), f.password, users, teams, h, id)
      case Refused(cause) => UserChange(Response(500, LibraryErrorBody(cause)), users)
      case Registered(u) => UserChange(Response(201, RegisteredBody(RegisteredMessage, u)), users + [u])
  }

  /** The handler checks the email only within the company, but the unique
      index is global: an email held in another company passes the handler's
      check and is refused by the plugin with a 500, the store unchanged. */
  lemma {:induction false} EmailTakenInOtherCompany(path: Id, f: RegisterForm, users: seq<UserDoc>, teams: Teams,
                                                    h: Hasher, id: Id, v: UserDoc)
    requires EmailsUnique(users)
    requires v in users && v.company != path && v.email == f.email && f.email != ""
    ensures Register(Some(path), path, f, users, teams, h, id)
            == UserChange(Response(500, LibraryErrorBody(UserExists)), users)
  {
    FindByUsernameUnique(users, v);
    forall u | u in users
      ensures !(u.email == f.email && u.company == path)
    {
      if u.email == v.email {
        FindByUsernameUnique(users, u);
      }
    }
  }

  /** `POST /:companyID/users/register`: the bearer-token guard, then the handler. */
  function RegisterRoute(header: Option<string>, sg: Signer, key: string, now: int, path: Id, f: RegisterForm,
                         users: seq<UserDoc>, teams: Teams, h: Hasher, id: Id): (r: UserChange)
    ensures TokenGuard.Authenticate(header, sg, key, now).Denied? ==>
      r == UserChange(TokenGuard.Authenticate(header, sg, key, now).response, users) && r.response.status == 401
    ensures TokenGuard.Authenticate(header, sg, key, now).Admitted? ==>
      r == Register(TokenGuard.Authenticate(header, sg, key, now).companyID, path, f, users, teams, h, id)
  {
    match TokenGuard.Authenticate(header, sg, key, now)
    case Denied(response) => UserChange(response, users)
    case Admitted(companyID) => Register(companyID, path, f, users, teams, h, id)
  }

  /** A valid token of company `p.companyID` used on another company's path
      passes the guard (the guard compares nothing) and is refused by the
      handler with a 403, not a 401; nothing is stored. */
  lemma {:induction false} ForeignTokenForbidden(sg: Signer, env: Option<string>, p: Payload, iat: int, now: int,
                                                 path: Id, f: RegisterForm, users: seq<UserDoc>, teams: Teams,
                                                 h: Hasher, id: Id)
    requires Sound(sg)
    requires now < iat + TokenLifetime
    requires p.companyID != path
    ensures RegisterRoute(Some(TokenGuard.BearerPrefix + sg.sign(p, SigningKey(env), iat, TokenLifetime)),
                          sg, SigningKey(env), now, path, f, users, teams, h, id)
            == UserChange(Response(403, ErrorBody(RegisterForbiddenMessage)), users)
  {
    TokenGuard.BearerTokenAdmitted(sg, SigningKey(env), p, iat, now);
  }

  /** A valid token of the path's own company reaches the handler's store checks. */
  lemma {:induction false} OwnTokenReachesHandler(sg: Signer, env: Option<string>, p: Payload, iat: int, now: int,
                                                  f: RegisterForm, users: seq<UserDoc>, teams: Teams,
                                                  h: Hasher, id: Id)
    requires Sound(sg)
    requires now < iat + TokenLifetime
    ensures var r := RegisterRoute(Some(TokenGuard.BearerPrefix + sg.sign(p, SigningKey(env), iat, TokenLifetime)),
                                   sg, SigningKey(env), now, p.companyID, f, users, teams, h, id);
      r == Register(Some(p.companyID), p.companyID, f, users, teams, h, id) && r.response.status !in {401, 403}
  {
    TokenGuard.BearerTokenAdmitted(sg, SigningKey(env), p, iat, now);
  }

  /** The register route on a request and the store: the token guard may set
      `req.companyID`; only a 201 adds a user. */
  method HandleRegister(req: Request, db: Db, sg: Signer, key: string, now: int, path: Id, f: RegisterForm,
                        teams: Teams, h: Hasher, id: Id) returns (res: Response)
    requires db.Valid()
    requires forall u :: u in db.users ==> u.id != id
    modifies req, db
    ensures db.Valid() && db.companies == old(db.companies)
    ensures var a := TokenGuard.Authenticate(req.authorization, sg, key, now);
      && (a.Admitted? ==> req.companyID == a.companyID)
      && (a.Denied? ==> req.companyID == old(req.companyID))
    ensures var r := RegisterRoute(req.authorization, sg, key, now, path, f, old(db.users), teams, h, id);
      res == r.response && db.users == r.users
  {
    var g := TokenGuard.AuthenticateCompany(req, sg, key, now);
    if g.Halt? {
      return g.response;
    }
    if req.companyID != Some(path) {
      return Response(403, ErrorBody(RegisterForbiddenMessage));
    }
    if FindInCompany(db.users, f.email, path).Some? {
      return Response(400, ErrorBody(UserExistsInCompanyMessage));
    }
    var outcome := PluginRegister(DraftOf(f, path), f.password, db.users, teams, h, id);
    if outcome.Refused? {
      return Response(500, LibraryErrorBody(outcome.cause));
    }
    db.users := db.users + [outcome.user];
    res := Response(201, RegisteredBody(RegisteredMessage, outcome.user));
  }

  // ---------------------------------------------------------------- POST /users/login

  const LoginSucceededMessage: string := "Login successful"
  const InvalidCredentialsMessage: string := "Invalid credentials"
  /** The local strategy's default message for a missing email or password. */
  const MissingCredentialsMessage: string := "Missing credentials"
  /** The authentication plugin's default message for an unknown email and for a wrong password. */
  const IncorrectCredentialsMessage: string := "Password or username is incorrect"

  /** The email (the username field) and password the local strategy works
      with, as `ResolveCredentials` gives them. */
  datatype Credentials = Credentials(email: Option<string>, password: Option<string>)

  /** The local strategy's field lookup: each field is read from the request
      body and, when the body's value is falsy, from the query string. */
  function ResolveCredentials(body: Credentials, query: Credentials): (c: Credentials)
    ensures Truthy(c.email) <==> Truthy(body.email) || Truthy(query.email)
    ensures Truthy(c.password) <==> Truthy(body.password) || Truthy(query.password)
    ensures Truthy(body.email) ==> c.email == body.email
    ensures !Truthy(body.email) ==> c.email == query.email
    ensures Truthy(body.password) ==> c.password == body.password
    ensures !Truthy(body.password) ==> c.password == query.password
  {
    Credentials(if Truthy(body.email) then body.email else query.email,
                if Truthy(body.password) then body.password else query.password)
  }

  /** A login with an empty body and the credentials in the query string
      (`POST /users/login?email=…&password=…`) is decided exactly as if they
      were in the body. */
  lemma QueryStringCredentials(query: Credentials, users: seq<UserDoc>, h: Hasher, lookupError: Option<string>)
    ensures Strategy(ResolveCredentials(Credentials(None, None), query), users, h, lookupError)
         == Strategy(ResolveCredentials(query, Credentials(None, None)), users, h, lookupError)
  {
  }

  /** What the strategy hands the route's callback: `(err)`, `(null, false, info)` or `(null, user)`. */
  datatype StrategyResult =
    | StrategyError(message: string)
    | StrategyRejected(info: string)
    | StrategyAccepted(user: UserDoc)

  /** The local strategy of the plugin: both fields must be present and
      non-empty, the user is found by username, and `h.matches` checks the
      password against the stored credential. `lookupError` is a failure of
      the store while looking the user up. */
  function Strategy(c: Credentials, users: seq<UserDoc>, h: Hasher, lookupError: Option<string>): (s: StrategyResult)
    ensures s.StrategyAccepted? <==>
      && Truthy(c.email) && Truthy(c.password) && lookupError.None?
      && FindByUsername(users, c.email.value).Some?
      && h.matches(c.password.value, FindByUsername(users, c.email.value).value.hash)
    ensures s.StrategyAccepted? ==> s.user in users && Some(s.user.email) == c.email
    ensures !Truthy(c.email) || !Truthy(c.password) ==> s == StrategyRejected(MissingCredentialsMessage)
    ensures s.StrategyError? ==> lookupError == Some(s.message)
    ensures Truthy(c.email) && Truthy(c.password) && lookupError.Some? ==> s == StrategyError(lookupError.value)
    ensures s.StrategyRejected? ==> s.info != ""
  {
    if !Truthy(c.email) || !Truthy(c.password) then StrategyRejected(MissingCredentialsMessage)
    else if lookupError.Some? then StrategyError(lookupError.value)
    else match FindByUsername(users, c.email.value)
      case None => StrategyRejected(IncorrectCredentialsMessage)
      case Some(u) =>
        if h.matches(c.password.value, u.hash) then StrategyAccepted(u)
        else StrategyRejected(IncorrectCredentialsMessage)
  }

  /** The login's reply, if any, and the user it logs into the session, if any. */
  datatype UserLoginOutcome = UserLoginOutcome(reply: Option<Response>, loggedIn: Option<UserDoc>)

  /** The login route: the strategy, then `req.logIn` (which can report
      `logInError`), then the user with its company populated. When the
      user's company no longer exists, reading its `_id` throws inside the
      async callback: an unhandled promise rejection, which sends no reply
      (and, on Node 15 and later, by default ends the process), although the
      user is already logged in. */
  function UserLogin(c: Credentials, users: seq<UserDoc>, companies: seq<Company>, h: Hasher,
                     lookupError: Option<string>, logInError: Option<string>): (o: UserLoginOutcome)
    ensures o.loggedIn.Some? <==> Strategy(c, users, h, lookupError).StrategyAccepted? && logInError.None?
    ensures o.loggedIn.Some? ==>
      o.loggedIn.value in users && Some(o.loggedIn.value.email) == c.email
      && h.matches(c.password.value, o.loggedIn.value.hash)
    ensures o.reply.None? <==> o.loggedIn.Some? && CompanyById(companies, o.loggedIn.value.company).None?
    ensures o.reply.Some? ==> o.reply.value.status in {200, 401, 500}
    // a rejection answers 401 with the strategy's own message; the route's fallback text is never needed
    ensures Strategy(c, users, h, lookupError).StrategyRejected? ==>
      o.reply == Some(Response(401, ErrorBody(Strategy(c, users, h, lookupError).info))) && o.loggedIn.None?
    ensures o.reply.Some? && o.reply.value.status == 401 ==>
      && o.loggedIn.None? && Strategy(c, users, h, lookupError).StrategyRejected?
      && o.reply.value.body == ErrorBody(Strategy(c, users, h, lookupError).info)
    ensures o.reply.Some? && o.reply.value.status == 500 ==> o.loggedIn.None?
    // success: a profile of id, name, email, the company's id and role, without the credential
    ensures o.reply.Some? && o.reply.value.status == 200 ==>
      && o.loggedIn.Some?
      && var u := o.loggedIn.value;
      o.reply.value.body == UserLoginBody(LoginSucceededMessage, Profile(u.id, u.name, u.email, u.company, u.role))
  {
    match Strategy(c, users, h, lookupError)
    case StrategyError(message) =>
      UserLoginOutcome(Some(Response(500, LibraryErrorBody(StrategyFailed(message)))), None)
    case StrategyRejected(info) =>
      UserLoginOutcome(Some(Response(401, ErrorBody(if info != "" then info else InvalidCredentialsMessage))), None)
    case StrategyAccepted(u) =>
      if logInError.Some? then UserLoginOutcome(Some(Response(500, LibraryErrorBody(LogInFailed(logInError.value)))), None)
      else match CompanyById(companies, u.company)
        case None => UserLoginOutcome(None, Some(u))
        case Some(company) =>
          UserLoginOutcome(Some(Response(200, UserLoginBody(LoginSucceededMessage,
                                                            Profile(u.id, u.name, u.email, company.id, u.role)))),
                           Some(u))
  }

  /** An unknown email and a wrong password get the same 401 and log nobody in. */
  lemma UserLoginFailuresIndistinguishable(users: seq<UserDoc>, companies: seq<Company>, h: Hasher,
                                           unknown: string, known: string, password: string,
                                           logInError: Option<string>)
    requires unknown != "" && known != "" && password != ""
    requires FindByUsername(users, unknown).None?
    requires FindByUsername(users, known).Some? && !h.matches(password, FindByUsername(users, known).value.hash)
    ensures UserLogin(Credentials(Some(unknown), Some(password)), users, companies, h, None, logInError)
            == UserLogin(Credentials(Some(known), Some(password)), users, companies, h, None, logInError)
            == UserLoginOutcome(Some(Response(401, ErrorBody(IncorrectCredentialsMessage))), None)
  {
  }

  /** A user whose company was deleted still logs in, but gets no reply. */
  lemma {:induction false} DeletedCompanyLoginUnanswered(users: seq<UserDoc>, companies: seq<Company>, h: Hasher,
                                                         u: UserDoc, password: string)
    requires EmailsUnique(users) && u in users
    requires u.email != "" && password != "" && h.matches(password, u.hash)
    requires forall c :: c in companies ==> c.id != u.company
    ensures UserLogin(Credentials(Some(u.email), Some(password)), users, companies, h, None, None)
            == UserLoginOutcome(None, Some(u))
  {
    FindByUsernameUnique(users, u);
  }

  /** The login on the session. With the session regenerated by `req.logIn`,
      a successful login keeps only the user: a company logged in on the same
      session is logged out. Any other outcome leaves the session alone. */
  method LogInUser(session: Session, c: Credentials, users: seq<UserDoc>, companies: seq<Company>, h: Hasher,
                   lookupError: Option<string>, logInError: Option<string>) returns (reply: Option<Response>)
    modifies session
    ensures var o := UserLogin(c, users, companies, h, lookupError, logInError);
      && reply == o.reply
      && (o.loggedIn.Some? ==> session.passportUser == Some(o.loggedIn.value.email) && session.companyID == None)
      && (o.loggedIn.None? ==>
            session.passportUser == old(session.passportUser) && session.companyID == old(session.companyID))
  {
    var s := Strategy(c, users, h, lookupError);
    if s.StrategyError? {
      return Some(Response(500, LibraryErrorBody(StrategyFailed(s.message))));
    }
    if s.StrategyRejected? {
      return Some(Response(401, ErrorBody(if s.info != "" then s.info else InvalidCredentialsMessage)));
    }
    if logInError.Some? {
      return Some(Response(500, LibraryErrorBody(LogInFailed(logInError.value))));
    }
    session.companyID := None;
    session.passportUser := Some(s.user.email);
    var company := CompanyById(companies, s.user.company);
    if company.None? {
      return None;
    }
    reply := Some(Response(200, UserLoginBody(LoginSucceededMessage,
                                              Profile(s.user.id, s.user.name, s.user.email, company.value.id, s.user.role))));
  }

  // ---------------------------------------------------------------- POST /:companyID/users/logout

  const LoggedOutMessage: string := "Logged out successfully"

  /** `req.logout`: no login needed. The user is always removed from the
      session; on success the session is regenerated, so a company login on
      it ends too; a reported error is answered with a 500. */
  method LogOut(session: Session, logoutError: Option<string>) returns (res: Response)
    modifies session
    ensures session.passportUser == None
    ensures logoutError.None? ==> res == Response(200, MessageBody(LoggedOutMessage)) && session.companyID == None
    ensures logoutError.Some? ==>
      res == Response(500, LibraryErrorBody(LogOutFailed(logoutError.value)))
      && session.companyID == old(session.companyID)
  {
    session.passportUser := None;
    if logoutError.Some? {
      return Response(500, LibraryErrorBody(LogOutFailed(logoutError.value)));
    }
    session.companyID := None;
    res := Response(200, MessageBody(LoggedOutMessage));
  }

  // ---------------------------------------------------------------- GET /:companyID/users/session

  /** The session check: the session's username is deserialised by looking it
      up again; the request is authenticated exactly when that finds a user. */
  function SessionCheck(passportUser: Option<string>, users: seq<UserDoc>): (r: Response)
    ensures r.status == 200 && r.body.SessionStatusBody?
    ensures r.body.authenticated <==> passportUser.Some? && exists u :: u in users && u.email == passportUser.value
    ensures r.body.authenticated ==>
      r.body.sessionUser.Some? && exists u :: u in users && u.email == passportUser.value && r.body.sessionUser.value == Public(u)
    ensures !r.body.authenticated ==> r.body.sessionUser.None?
  {
    match passportUser
    case None => Response(200, SessionStatusBody(false, None))
    case Some(email) =>
      match FindByUsername(users, email)
      case None => Response(200, SessionStatusBody(false, None))
      case Some(u) => Response(200, SessionStatusBody(true, Some(Public(u))))
  }

  /** After a login, the session check reports that user, without its credential. */
  lemma {:induction false} LoggedInUserAuthenticated(c: Credentials, users: seq<UserDoc>, companies: seq<Company>,
                                                     h: Hasher, lookupError: Option<string>, logInError: Option<string>)
    requires EmailsUnique(users)
    requires UserLogin(c, users, companies, h, lookupError, logInError).loggedIn.Some?
    ensures var u := UserLogin(c, users, companies, h, lookupError, logInError).loggedIn.value;
      SessionCheck(Some(u.email), users) == Response(200, SessionStatusBody(true, Some(Public(u))))
  {
    var u := UserLogin(c, users, companies, h, lookupError, logInError).loggedIn.value;
    FindByUsernameUnique(users, u);
  }

  // ---------------------------------------------------------------- PUT / DELETE /:companyID/users/:userID

  const UpdateForbiddenMessage: string := "Unauthorized: You can only update users within your own company"
  const DeleteForbiddenMessage: string := "Unauthorized: You can only delete users within your own company"
  const UserUpdatedMessage: string := "User updated successfully"
  const UserDeletedMessage: string := "User deleted successfully"

  /** The schema fields an update body may carry. */
  datatype UserPatch = UserPatch(
    name: Option<string>, email: Option<string>, company: Option<Id>,
    role: Option<string>, l1Team: Option<string>, l2Team: Option<string>,
    hash: Option<string>)

  /** `findByIdAndUpdate(id, body)`: each field given replaces the stored one.
      Update validators do not run, so neither `required` nor the enums are
      enforced here; the body can move the user to another company, and can
      overwrite the credential path the authentication plugin adds. */
  function ApplyPatch(u: UserDoc, p: UserPatch): UserDoc {
    UserDoc(u.id, Or(p.name, u.name), Or(p.email, u.email), Or(p.company, u.company),
            Or(p.role, u.role), Or(p.l1Team, u.l1Team), Or(p.l2Team, u.l2Team), Or(p.hash, u.hash))
  }

  /** Replacing the document at `i` by one with the same id and an email no
      other user holds keeps both unique indexes. */
  lemma {:induction false} ReplaceUserKeepsUnique(users: seq<UserDoc>, i: nat, v: UserDoc)
    requires i < |users|
    requires v.id == users[i].id
    requires forall k :: 0 <= k < |users| && users[k].id != v.id ==> users[k].email != v.email
    ensures UserIdsUnique(users) && EmailsUnique(users) ==> UserIdsUnique(users[i := v]) && EmailsUnique(users[i := v])
  {
    var updated := users[i := v];
    if UserIdsUnique(users) && EmailsUnique(users) {
      forall a, b | 0 <= a < b < |updated|
        ensures updated[a].email != updated[b].email
      {
        if a == i {
          assert users[a].id != users[b].id;
        } else if b == i {
          assert users[a].id != users[b].id;
        }
      }
    }
  }

  /** Removing index `i` of a collection with unique ids removes exactly the
      user with `users[i]`'s id and keeps both unique indexes. */
  lemma {:induction false} RemoveUserKeepsOthers(users: seq<UserDoc>, i: nat)
    requires i < |users|
    ensures var rest := users[..i] + users[i + 1..];
      && |rest| == |users| - 1
      && (UserIdsUnique(users) ==> forall v :: v in rest <==> v in users && v.id != users[i].id)
      && (UserIdsUnique(users) && EmailsUnique(users) ==> UserIdsUnique(rest) && EmailsUnique(rest))
  {
    var rest := users[..i] + users[i + 1..];
    assert forall j :: 0 <= j < |rest| ==> rest[j] == if j < i then users[j] else users[j + 1];
    if UserIdsUnique(users) {
      forall v
        ensures v in rest <==> v in users && v.id != users[i].id
      {
        if v in rest {
          var j :| 0 <= j < |rest| && rest[j] == v;
          if j < i { assert users[j].id != users[i].id; } else { assert users[i].id != users[j + 1].id; }
        }
        if v in users && v.id != users[i].id {
          var k :| 0 <= k < |users| && users[k] == v;
          if k < i { assert rest[k] == v; } else { assert k > i && rest[k - 1] == v; }
        }
      }
    }
  }

  /** The update handler body, comparing `identity` with the path company:
      the identity check, `findOne({ _id, company })`, then the update, which
      the unique email index refuses when another user holds the new email. */
  function UpdateUser(identity: Option<Id>, path: Id, userID: Id, patch: UserPatch, users: seq<UserDoc>): (r: UserChange)
    ensures r.response.status in {200, 403, 404, 500}
    ensures r.response.status == 403 <==> identity != Some(path)
    ensures r.response.status == 403 ==> r == UserChange(Response(403, ErrorBody(UpdateForbiddenMessage)), users)
    ensures r.response.status == 404 <==>
      identity == Some(path) && forall u :: u in users ==> !(u.id == userID && u.company == path)
    ensures r.response.status == 404 ==> r == UserChange(Response(404, ErrorBody(UserNotFoundMessage)), users)
    ensures r.response.status == 500 ==>
      r == UserChange(Response(500, LibraryErrorBody(DuplicateKey("email"))), users)
    ensures r.response.status == 200 ==>
      exists i :: 0 <= i < |users| && users[i].id == userID && users[i].company == path
        && r.users == users[i := ApplyPatch(users[i], patch)]
        && r.response.body == UserUpdatedBody(UserUpdatedMessage, Public(ApplyPatch(users[i], patch)))
    // only that user changes
    ensures r.response.status == 200 && UserIdsUnique(users) ==>
      |r.users| == |users|
      && forall j :: 0 <= j < |users| ==>
        r.users[j] == if users[j].id == userID then ApplyPatch(users[j], patch) else users[j]
    ensures UserIdsUnique(users) && EmailsUnique(users) ==> UserIdsUnique(r.users) && EmailsUnique(r.users)
  {
    if identity != Some(path) then UserChange(Response(403, ErrorBody(UpdateForbiddenMessage)), users)
    else match FirstIndex(users, (u: UserDoc) => u.id == userID && u.company == path)
      case None => UserChange(Response(404, ErrorBody(UserNotFoundMessage)), users)
      case Some(i) =>
        var v := ApplyPatch(users[i], patch);
        if FirstIndex(users, (w: UserDoc) => w.id != userID && w.email == v.email).Some? then
          UserChange(Response(500, LibraryErrorBody(DuplicateKey("email"))), users)
        else
          ReplaceUserKeepsUnique(users, i, v);
          UserChange(Response(200, UserUpdatedBody(UserUpdatedMessage, Public(v))), users[i := v])
  }

  /** Under the unique indexes, an update is refused as a duplicate exactly
      when it sets an email that another user holds. */
  lemma {:induction false} UpdateDuplicateOnlyOnTakenEmail(path: Id, userID: Id, patch: UserPatch, users: seq<UserDoc>)
    requires UserIdsUnique(users) && EmailsUnique(users)
    requires exists u :: u in users && u.id == userID && u.company == path
    ensures UpdateUser(Some(path), path, userID, patch, users).response.status == 500 <==>
      patch.email.Some? && exists w :: w in users && w.id != userID && w.email == patch.email.value
  {
    var i := FirstIndex(users, (u: UserDoc) => u.id == userID && u.company == path).value;
    var v := ApplyPatch(users[i], patch);
    if patch.email.None? {
      forall k | 0 <= k < |users|
        ensures !(users[k].id != userID && users[k].email == v.email)
      {
        if k < i { assert users[k].email != users[i].email; }
        else if i < k { assert users[i].email != users[k].email; }
      }
    } else {
      forall w | w in users && w.id != userID && w.email == patch.email.value
        ensures FirstIndex(users, (x: UserDoc) => x.id != userID && x.email == v.email).Some?
      {
        var k :| 0 <= k < |users| && users[k] == w;
        assert users[k].id != userID && users[k].email == v.email;
      }
    }
  }

  /** The delete handler body, comparing `identity` with the path company. */
  function RemoveUser(identity: Option<Id>, path: Id, userID: Id, users: seq<UserDoc>): (r: UserChange)
    ensures r.response.status in {200, 403, 404}
    ensures r.response.status == 403 <==> identity != Some(path)
    ensures r.response.status == 403 ==> r == UserChange(Response(403, ErrorBody(DeleteForbiddenMessage)), users)
    ensures r.response.status == 404 <==>
      identity == Some(path) && forall u :: u in users ==> !(u.id == userID && u.company == path)
    ensures r.response.status == 404 ==> r == UserChange(Response(404, ErrorBody(UserNotFoundMessage)), users)
    ensures r.response.status == 200 ==>
      r.response == Response(200, MessageBody(UserDeletedMessage)) && |r.users| == |users| - 1
    // the others keep their natural order
    ensures r.response.status == 200 ==>
      exists i :: 0 <= i < |users| && users[i].id == userID && users[i].company == path
        && r.users == users[..i] + users[i + 1..]
    // only that user is removed
    ensures r.response.status == 200 && UserIdsUnique(users) ==>
      forall v :: v in r.users <==> v in users && v.id != userID
    ensures UserIdsUnique(users) && EmailsUnique(users) ==> UserIdsUnique(r.users) && EmailsUnique(r.users)
  {
    if identity != Some(path) then UserChange(Response(403, ErrorBody(DeleteForbiddenMessage)), users)
    else match FirstIndex(users, (u: UserDoc) => u.id == userID && u.company == path)
      case None => UserChange(Response(404, ErrorBody(UserNotFoundMessage)), users)
      case Some(i) =>
        RemoveUserKeepsOthers(users, i);
        UserChange(Response(200, MessageBody(UserDeletedMessage)), users[..i] + users[i + 1..])
  }

  /** `PUT /:companyID/users/:userID` as written: the session guard, then a
      handler comparing the path with `req.companyID`, which only the
      bearer-token guard sets and which this route's chain leaves absent. */
  function PutUserAsWritten(reqCompany: Option<Id>, sessionCompany: Option<Id>, path: Id, userID: Id,
                            patch: UserPatch, users: seq<UserDoc>): (r: UserChange)
    ensures CompanySessionGuard.Authorize(sessionCompany, path).Halt? ==>
      r == UserChange(CompanySessionGuard.Authorize(sessionCompany, path).response, users)
    ensures reqCompany != Some(path) ==> r.response.status == 403 && r.users == users
  {
    match CompanySessionGuard.Authorize(sessionCompany, path)
    case Halt(response) => UserChange(response, users)
    case Next => UpdateUser(reqCompany, path, userID, patch, users)
  }

  /** `DELETE /:companyID/users/:userID` as written, with the same comparison. */
  function DeleteUserAsWritten(reqCompany: Option<Id>, sessionCompany: Option<Id>, path: Id, userID: Id,
                               users: seq<UserDoc>): (r: UserChange)
    ensures CompanySessionGuard.Authorize(sessionCompany, path).Halt? ==>
      r == UserChange(CompanySessionGuard.Authorize(sessionCompany, path).response, users)
    ensures reqCompany != Some(path) ==> r.response.status == 403 && r.users == users
  {
    match CompanySessionGuard.Authorize(sessionCompany, path)
    case Halt(response) => UserChange(response, users)
    case Next => RemoveUser(reqCompany, path, userID, users)
  }

  /** The update as evidently intended: the handler compares with the
      session's company, the identity the guard has already checked. */
  function PutUser(sessionCompany: Option<Id>, path: Id, userID: Id, patch: UserPatch, users: seq<UserDoc>): (r: UserChange)
    ensures CompanySessionGuard.Authorize(sessionCompany, path).Halt? ==>
      r == UserChange(CompanySessionGuard.Authorize(sessionCompany, path).response, users)
    ensures CompanySessionGuard.Authorize(sessionCompany, path).Next? ==>
      r == UpdateUser(Some(path), path, userID, patch, users) && r.response.status in {200, 404, 500}
  {
    match CompanySessionGuard.Authorize(sessionCompany, path)
    case Halt(response) => UserChange(response, users)
    case Next => UpdateUser(sessionCompany, path, userID, patch, users)
  }

  /** The delete as evidently intended, comparing with the session's company. */
  function DeleteUser(sessionCompany: Option<Id>, path: Id, userID: Id, users: seq<UserDoc>): (r: UserChange)
    ensures CompanySessionGuard.Authorize(sessionCompany, path).Halt? ==>
      r == UserChange(CompanySessionGuard.Authorize(sessionCompany, path).response, users)
    ensures CompanySessionGuard.Authorize(sessionCompany, path).Next? ==>
      r == RemoveUser(Some(path), path, userID, users) && r.response.status in {200, 404}
  {
    match CompanySessionGuard.Authorize(sessionCompany, path)
    case Halt(response) => UserChange(response, users)
    case Next => RemoveUser(sessionCompany, path, userID, users)
  }

  /** As written, a company logged in on the session cannot update or delete
      even its own user: the request carries no `req.companyID`. */
  lemma AsWrittenAlwaysForbidden(sessionCompany: Option<Id>, path: Id, userID: Id, patch: UserPatch, users: seq<UserDoc>)
    ensures PutUserAsWritten(None, sessionCompany, path, userID, patch, users).response.status == 403
    ensures PutUserAsWritten(None, sessionCompany, path, userID, patch, users).users == users
    ensures DeleteUserAsWritten(None, sessionCompany, path, userID, users).response.status == 403
    ensures DeleteUserAsWritten(None, sessionCompany, path, userID, users).users == users
  {
  }

  /** The concrete case: company "c1" logged in, its user "u1", a request on
      its own path. As written both routes answer 403; as intended the user
      is updated and deleted. */
  lemma {:induction false} AsWrittenCounterexample()
    ensures var u := UserDoc("u1", "Ann", "ann@example.com", "c1", MemberRole, "t1", "t2", "h");
      var patch := UserPatch(Some("Bea"), None, None, None, None, None, None);
      && CompanySessionGuard.Authorize(Some("c1"), "c1").Next?
      && PutUserAsWritten(None, Some("c1"), "c1", "u1", patch, [u]).response
         == Response(403, ErrorBody(UpdateForbiddenMessage))
      && PutUser(Some("c1"), "c1", "u1", patch, [u]) == UserChange(
           Response(200, UserUpdatedBody(UserUpdatedMessage, Public(ApplyPatch(u, patch)))), [ApplyPatch(u, patch)])
      && DeleteUserAsWritten(None, Some("c1"), "c1", "u1", [u]).response
         == Response(403, ErrorBody(DeleteForbiddenMessage))
      && DeleteUser(Some("c1"), "c1", "u1", [u]) == UserChange(Response(200, MessageBody(UserDeletedMessage)), [])
  {
    var u := UserDoc("u1", "Ann", "ann@example.com", "c1", MemberRole, "t1", "t2", "h");
    var patch := UserPatch(Some("Bea"), None, None, None, None, None, None);
    var us := [u];
    assert FirstIndex(us, (x: UserDoc) => x.id == "u1" && x.company == "c1") == Some(0);
    assert [u][..0] + [u][1..] == [];
  }

  /** Behind a passing guard, an existing user of the company whose email is
      not changed is updated, and only that user changes. */
  lemma {:induction false} PutUserUpdatesOwnUser(path: Id, userID: Id, patch: UserPatch, users: seq<UserDoc>, v: UserDoc)
    requires path != ""
    requires UserIdsUnique(users) && EmailsUnique(users)
    requires v in users && v.id == userID && v.company == path && patch.email.None?
    ensures var r := PutUser(Some(path), path, userID, patch, users);
      && r.response == Response(200, UserUpdatedBody(UserUpdatedMessage, Public(ApplyPatch(v, patch))))
      && forall j :: 0 <= j < |users| ==>
           r.users[j] == if users[j].id == userID then ApplyPatch(users[j], patch) else users[j]
  {
    UpdateDuplicateOnlyOnTakenEmail(path, userID, patch, users);
    var r := UpdateUser(Some(path), path, userID, patch, users);
    assert r.response.status == 200;
    var i :| 0 <= i < |users| && users[i].id == userID && users[i].company == path
             && r.response.body == UserUpdatedBody(UserUpdatedMessage, Public(ApplyPatch(users[i], patch)));
    var k :| 0 <= k < |users| && users[k] == v;
    assert i == k;
  }

  /** Behind a passing guard, an existing user of the company is deleted, and
      only that user. */
  lemma {:induction false} DeleteUserRemovesOwnUser(path: Id, userID: Id, users: seq<UserDoc>, v: UserDoc)
    requires path != ""
    requires UserIdsUnique(users)
    requires v in users && v.id == userID && v.company == path
    ensures var r := DeleteUser(Some(path), path, userID, users);
      && r.response == Response(200, MessageBody(UserDeletedMessage))
      && forall w :: w in r.users <==> w in users && w.id != userID
  {
    var r := RemoveUser(Some(path), path, userID, users);
    assert r.response.status != 404;
  }

  /** The update route as intended, on the session and the store. */
  method HandleUpdateUser(session: Session, db: Db, path: Id, userID: Id, patch: UserPatch) returns (res: Response)
    requires db.Valid()
    modifies db
    ensures db.Valid() && db.companies == old(db.companies)
    ensures var r := PutUser(session.companyID, path, userID, patch, old(db.users));
      res == r.response && db.users == r.users
  {
    var g := CompanySessionGuard.Authorize(session.companyID, path);
    if g.Halt? {
      return g.response;
    }
    var found := FirstIndex(db.users, (u: UserDoc) => u.id == userID && u.company == path);
    if found.None? {
      return Response(404, ErrorBody(UserNotFoundMessage));
    }
    var updated := ApplyPatch(db.users[found.value], patch);
    if FirstIndex(db.users, (w: UserDoc) => w.id != userID && w.email == updated.email).Some? {
      return Response(500, LibraryErrorBody(DuplicateKey("email")));
    }
    db.users := db.users[found.value := updated];
    res := Response(200, UserUpdatedBody(UserUpdatedMessage, Public(updated)));
  }

  /** The delete route as intended, on the session and the store. */
  method HandleDeleteUser(session: Session, db: Db, path: Id, userID: Id) returns (res: Response)
    requires db.Valid()
    modifies db
    ensures db.Valid() && db.companies == old(db.companies)
    ensures var r := DeleteUser(session.companyID, path, userID, old(db.users));
      res == r.response && db.users == r.users
  {
    var g := CompanySessionGuard.Authorize(session.companyID, path);
    if g.Halt? {
      return g.response;
    }
    var found := FirstIndex(db.users, (u: UserDoc) => u.id == userID && u.company == path);
    if found.None? {
      return Response(404, ErrorBody(UserNotFoundMessage));
    }
    var i := found.value;
    RemoveUserKeepsOthers(db.users, i);
    db.users := db.users[..i] + db.users[i + 1..];
    res := Response(200, MessageBody(UserDeletedMessage));
  }
}
