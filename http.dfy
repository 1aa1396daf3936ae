/** The request context the middleware and handlers share: the JSON responses
    they send, the error values libraries below them raise, the request
    object (`req.companyID` is the one field the handlers' middleware writes)
    and the server-side session. */
module Http {
  import opened Common
  import opened UserModel
  import opened CompanyModel

  /** One entry of a request validator's error list. */
  datatype FieldError = FieldError(path: string, msg: string)

  /** Failures raised by libraries under a handler. The handler's `catch`
      answers each with `{ error: error.message }`; the message text is the
      library's, so the model keeps the cause instead. */
  datatype LibraryError =
    | NegativeSkip                    // the database refuses a negative `skip`
    | SaveRejected(message: string)   // a company document the store refuses to save
    | MissingUsername                 // user registration without an email
    | UserExists                      // user registration with an email already registered
    | MissingPassword                 // user registration without a password
    | ValidationFailed(paths: set<string>)  // schema validators that failed on save
    | DuplicateKey(path: string)      // an update that would break a unique index
    | StrategyFailed(message: string) // the login strategy's user lookup failed
    | LogInFailed(message: string)    // the session login callback reported an error
    | LogOutFailed(message: string)   // the logout callback reported an error

  /** The company object of a login response. */
  datatype CompanyView = CompanyView(id: Id, name: string, email: string)

  /** The user profile of a user login response. */
  datatype Profile = Profile(id: Id, name: string, email: string, companyID: Id, role: string)

  /** Every JSON body a handler of the model sends. */
  datatype Body =
    | ErrorBody(error: string)
    | LibraryErrorBody(cause: LibraryError)
    | ValidationErrorsBody(errors: seq<FieldError>)
    | MessageBody(message: string)
    | CompanyDocBody(company: Company)
    | CompanyPageBody(companies: seq<Company>, totalPages: Option<int>, currentPage: int)
    | CompanyLoginBody(message: string, token: string, view: CompanyView)
    | UserListBody(users: seq<PublicUser>)
    | UserDocBody(user: PublicUser)
    | RegisteredBody(message: string, created: UserDoc)
    | UserUpdatedBody(message: string, updatedUser: PublicUser)
    | UserLoginBody(message: string, profile: Profile)
    | SessionStatusBody(authenticated: bool, sessionUser: Option<PublicUser>)

  datatype Response = Response(status: nat, body: Body)

  /** The 404 message of every user lookup, in both route files. */
  const UserNotFoundMessage: string := "User not found"

  /** What a middleware does: call `next()`, or answer and stop. */
  datatype Gate = Next | Halt(response: Response)

  /** An incoming request as the middleware sees it. */
  class Request {
    /** The `Authorization` header, if sent. */
    const authorization: Option<string>
    /** `req.companyID`: absent until the bearer-token guard sets it. */
    var companyID: Option<Id>

    constructor (authorization: Option<string>)
      ensures this.authorization == authorization && companyID == None
    {
      this.authorization := authorization;
      companyID := None;
    }
  }

  /** The server-side session bound to the request's cookie. */
  class Session {
    /** `req.session.companyID`, written by a successful company login. */
    var companyID: Option<Id>
    /** The user the authentication layer keeps in the session, serialised by
        its username (its email); absent when no user is logged in. */
    var passportUser: Option<string>

    constructor ()
      ensures companyID == None && passportUser == None
    {
      companyID := None;
      passportUser := None;
    }
  }
}
