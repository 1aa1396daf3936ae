# Company and user access for an OKR back end, in Dafny

This project models the part of an Express / MongoDB OKR server that decides
who may do what within a company. It covers:

- the two guards: `authenticateCompanySession` compares the session's company
  with the company in the path; `authenticateCompany` checks a bearer token
  and copies its `companyID` into `req.companyID`;
- the company routes: creation with request validation, the paginated list,
  get / update / delete by id, the company login (session plus a one-hour
  token), and the session-guarded queries for a company's users;
- the user routes: registration behind the token guard, user login and logout
  on the session, the session check, and update / delete of a user behind the
  session guard;
- the User document: its required fields, the role enum and its default, the
  team enums, the unique email index, and email as the login username.

The store is two collections (`Store.Db`), each a sequence in natural order:
`findOne` is the first match and pagination slices the order. Its invariant
`Valid` is the unique `_id` indexes and the unique user email index. Each
handler is a pure function that gives the response and the collection it
leaves. Where the source changes state, module-level methods take the
objects they change as parameters:

- The methods that write the store take a `Store.Db`: the company create,
  update and delete handlers, `UserRoutes.HandleRegister` (which also takes
  the request), and `UserRoutes.HandleUpdateUser` and
  `UserRoutes.HandleDeleteUser` (which also read the session). Each is
  proved equal to its handler function and proved to keep `Db.Valid`.
- `CompanyRoutes.HandleCompanyLogin` and `UserRoutes.LogInUser` take the
  session and no store. They are proved equal to their functions and state
  the new session.
- `TokenGuard.AuthenticateCompany` takes only the request. It is proved
  equal to `TokenGuard.Authenticate` and states the new `req.companyID`.
- `UserRoutes.LogOut` takes only the session. It has no counterpart
  function: its ensures give the response and the new session directly.

Foreign code becomes parameters:

- bcrypt and the authentication plugin's password hash are a `Common.Hasher`.
  Its only axiom is `Consistent`: a password matches its own hash.
- jsonwebtoken is a `Jwt.Signer`. Its axiom `Sound` says a token verifies
  under its key to the claims it was signed with until it expires, and that
  tokens are compact-serialised.
- The validator library's `isEmail`, the teams file and the clock are
  parameters too.
- A failure that a library reports (a refused save, a login or logout
  callback error) is an optional parameter.

The model assumes the session behaviour of passport 0.6 and later. The logout
route uses the callback form of `req.logout`, which only those versions have.
In those versions `req.logIn` and `req.logout` regenerate the session. So a
user login or a logout also ends a company login made on the same session.

## Model

| member | source | states |
|---|---|---|
| `CompanySessionGuard.Authorize` | src/middleware/authenticateCompanySession.js:1-12 | `next()` exactly when the session company is truthy and equal to the path company; a falsy session always gets 403 "Please log in as a company" (never the mismatch message); a different company gets 403 "You can only access your own company users"; every halt is a 403 |
| `JsString.ReplaceFirst` | src/middleware/auth.js:13 | `replace` with a string pattern: a string without the pattern is unchanged; otherwise only the first occurrence is replaced and the rest is kept |
| `JsString.ReplaceFirstAtStart` | src/middleware/auth.js:13 | a header that starts with the prefix loses exactly that prefix, whatever follows |
| `JsString.ReplaceFirstWithout` | src/middleware/auth.js:13 | a string that lacks a character of the pattern goes to the verifier unchanged |
| `Jwt.SigningKey` | src/middleware/auth.js:3 | the key is `JWT_SECRET` when that setting is truthy and `'your_secret_key'` otherwise; it is never empty |
| `TokenGuard.TokenOf` | src/middleware/auth.js:13 | the verifier gets the header itself when it contains no `"Bearer "`, and otherwise the header with its first `"Bearer "` cut out, everything before and after kept |
| `TokenGuard.Authenticate` | src/middleware/auth.js:5-19 | no or empty header: 401 "Access denied. No token provided."; verification fails: 401 "Invalid token"; otherwise admitted with the decoded `companyID`; no path comparison; every denial is a 401 |
| `TokenGuard.AuthenticateCompany` | src/middleware/auth.js:5-19 | on admission `next()` with `req.companyID` set to the decoded company; on denial the response, with `req.companyID` left as it was |
| `TokenGuard.BearerTokenAdmitted` | src/routes/companyRoutes.js:107-111 | a token signed for a company and sent as `Bearer <token>` within its hour is admitted with that company |
| `TokenGuard.BareTokenAdmitted` | src/middleware/auth.js:13 | the same token sent without the prefix is admitted too |
| `TokenGuard.ExpiredTokenDenied` | src/routes/companyRoutes.js:110 | after its hour the token is refused as "Invalid token", in both forms |
| `UserModel.RoleOrDefault` | src/models/User.js:20-24 | the role defaults to "user" only when none is given |
| `UserModel.SaveValidates` | src/models/User.js:5-34 | a save passes the validators exactly when the saved document has a non-empty name, email and company, a role in {admin, user} and teams from the two team enums |
| `UserModel.FindByUsername` | src/models/User.js:46 | lookup by the username field (email): a user found has that email; nothing is found exactly when no user has it |
| `UserModel.FindByUsernameUnique` | src/models/User.js:10-14 | under the unique email index, the lookup by a user's email finds that user |
| `CompanyModel.CompanyById` | src/routes/companyRoutes.js:58 | a company found has the id; none is found exactly when no company has it |
| `CompanyModel.CompanyByEmail` | src/routes/companyRoutes.js:93 | a company found has the email; none is found exactly when no company has it |
| `CompanyRoutes.FormErrors` | src/routes/companyRoutes.js:15-24 | the list is empty exactly when the name is non-empty, the email passes `isEmail` and the password has at least 6 characters; each failing rule adds its own message and nothing else is listed: only the three messages, each at most once, in chain order (name, email, password) |
| `CompanyRoutes.CreateCompany` | src/routes/companyRoutes.js:13-34 | 201 exactly when the form is valid and the save succeeds; validation errors or a refused save give 400 with the store unchanged; a 201 appends the saved company and keeps ids unique whenever a successful save has an id no company holds |
| `CompanyRoutes.HandleCreateCompany` | src/routes/companyRoutes.js:26-29 | the create handler on the store: the response and collection of `CreateCompany`, users untouched, invariant kept; a body `_id` already held is allowed, as long as the save is then refused |
| `CompanyRoutes.CeilDiv` | src/routes/companyRoutes.js:47 | `Math.ceil(a / b)`: the least `q` with `a <= q*b` for positive `b`, mirrored for negative `b` |
| `CompanyRoutes.TotalPages` | src/routes/companyRoutes.js:47 | null exactly for limit 0; for a positive limit, the number of limit-sized pages that hold `count` companies, 0 only for no companies |
| `CompanyRoutes.Window` | src/routes/companyRoutes.js:40-43 | `skip` then `limit`: the companies from index `skip` in order, all of them for limit 0 and at most the absolute value otherwise |
| `CompanyRoutes.ListCompanies` | src/routes/companyRoutes.js:37-53 | defaults page 1 and limit 10; 500 exactly when `(page-1)*limit` is negative; otherwise 200 with the window at that skip, `totalPages` and `currentPage = page` |
| `CompanyRoutes.DefaultListing` | src/routes/companyRoutes.js:38 | with no query values: the first ten companies, page 1, `ceil(count/10)` pages |
| `CompanyRoutes.PagesWithinTotal` | src/routes/companyRoutes.js:38-48 | for a positive limit and a page of at least 1: at most `limit` companies, and some exactly when the page is at most `totalPages` |
| `CompanyRoutes.EveryCompanyOnItsPage` | src/routes/companyRoutes.js:40-43 | for a positive limit, company `i` is listed on page `i/limit + 1` at position `i % limit` |
| `CompanyRoutes.GetCompany` | src/routes/companyRoutes.js:56-64 | 404 "Company not found" exactly when no company has the id; otherwise 200 with that company |
| `CompanyRoutes.UpdateCompany` | src/routes/companyRoutes.js:67-75 | 404 exactly when the id is absent, store unchanged; otherwise 200 with the patched company, which replaces only the company with that id; ids stay unique |
| `CompanyRoutes.HandleUpdateCompany` | src/routes/companyRoutes.js:67-75 | the update handler on the store, equal to `UpdateCompany`, invariant kept |
| `CompanyRoutes.DeleteCompany` | src/routes/companyRoutes.js:78-86 | 404 exactly when the id is absent, store unchanged; otherwise "Company deleted successfully" and exactly that company is removed, the others keeping their natural order |
| `CompanyRoutes.HandleDeleteCompany` | src/routes/companyRoutes.js:78-86 | the delete handler on the store, equal to `DeleteCompany`, invariant kept |
| `CompanyRoutes.CompanyLogin` | src/routes/companyRoutes.js:89-127 | success exactly when a company has the email and bcrypt accepts the password; every failure is 401 "Invalid email or password" with no session write; success writes the company id, returns a token signed with `{companyID, email}` for 3600 s and a company object of id, name and email only |
| `CompanyRoutes.HandleCompanyLogin` | src/routes/companyRoutes.js:103-104 | on the session: the company id is written on success only; the user part is untouched |
| `CompanyRoutes.LoginFailuresIndistinguishable` | src/routes/companyRoutes.js:93-101 | an unknown email and a wrong password give the identical 401 and no session write |
| `CompanyRoutes.LoginTokenAdmitted` | src/routes/companyRoutes.js:107-111 | the login's token, sent as `Bearer <token>` within the hour under the same `JWT_SECRET` setting, is admitted by the token guard with the company written into the session |
| `CompanyRoutes.CreatedCompanyCanLogIn` | src/routes/companyRoutes.js:93-98 | a company created from a valid form logs in with that email and password, when no earlier company has the email |
| `CompanyRoutes.CompanyUsers` | src/routes/companyRoutes.js:147 | exactly the users of the company, each without its credential |
| `CompanyRoutes.CompanyUsersInOrder` | src/routes/companyRoutes.js:147 | the listing is the company's users in collection order, each exactly once: an increasing index map onto exactly the matching users |
| `CompanyRoutes.ListUsersRoute` | src/routes/companyRoutes.js:136-152 | 200 exactly when the guard passes, with the path company's users in collection order, each once and without its credential; otherwise the guard's 403 |
| `CompanyRoutes.UsersRecheckRedundant` | src/routes/companyRoutes.js:143-145 | behind a passing guard the handler's own company check never fires |
| `CompanyRoutes.GetUserRoute` | src/routes/companyRoutes.js:159-177 | behind the guard: 404 "User not found" exactly when no user of the path company has the id; otherwise 200 with that user, no credential |
| `CompanyRoutes.OtherCompanysUserNotFound` | src/routes/companyRoutes.js:168-171 | a user of another company is not found, even by its exact id |
| `UserRoutes.FindInCompany` | src/routes/userRoutes.js:23 | a user found has the email and the company; none exactly when no user has both |
| `UserRoutes.PluginRegister` | src/routes/userRoutes.js:39 | missing email, then an email held by any user, then a missing password, then the schema violations; a draft passing all four is registered; a registered user is the saved draft with the password's hash, valid, and its email is held by no one else |
| `UserRoutes.Register` | src/routes/userRoutes.js:13-46 | 403 exactly when `req.companyID` differs from the path, before any lookup; 400 "User already exists in this company" exactly for an (email, company) match; library refusals give 500; 201 exactly for a matching token, an email no user holds, a password and a draft without violations; every non-201 leaves the store unchanged; a 201 appends a valid user of the path company with the body's name, email, role (default "user") and teams; both unique indexes are kept |
| `UserRoutes.EmailTakenInOtherCompany` | src/routes/userRoutes.js:23-24 | an email already used in another company passes the handler's check and fails in the plugin with a 500, store unchanged |
| `UserRoutes.RegisterRoute` | src/routes/userRoutes.js:13 | a token refused by the guard gives its 401 and no change; an admitted one reaches the handler with the decoded company |
| `UserRoutes.ForeignTokenForbidden` | src/routes/userRoutes.js:16-18 | a valid token of another company gets 403, not 401, and nothing is stored |
| `UserRoutes.OwnTokenReachesHandler` | src/routes/userRoutes.js:13-18 | a valid token of the path company reaches the store checks: neither 401 nor 403 |
| `UserRoutes.HandleRegister` | src/routes/userRoutes.js:13-46 | the route on the request and the store, equal to `RegisterRoute`; `req.companyID` becomes the decoded company on admission and is unchanged on denial; companies untouched; invariant kept |
| `UserRoutes.ResolveCredentials` | src/routes/userRoutes.js:52 | the local strategy's lookup of `email` and `password`: the body's value when truthy, otherwise the query string's |
| `UserRoutes.QueryStringCredentials` | src/routes/userRoutes.js:52 | credentials sent only in the query string are decided exactly as the same credentials in the body |
| `UserRoutes.Strategy` | src/models/User.js:46 | accepted exactly when email and password are non-empty, a user has that email and the password matches its credential; a missing field is "Missing credentials"; with both fields present, a store failure during the lookup is an error with its message; every rejection carries a non-empty message |
| `UserRoutes.UserLogin` | src/routes/userRoutes.js:52-76 | a user is logged in exactly when the strategy accepts and `req.logIn` reports no error; credentials the strategy rejects (missing, unknown email, wrong password) always get 401 with the strategy's message and log nobody in; errors are 500; no reply exactly when the user's company is gone; success is a profile of id, name, email, company id and role, without the credential |
| `UserRoutes.UserLoginFailuresIndistinguishable` | src/routes/userRoutes.js:53-55 | an unknown email and a wrong password give the same 401 and log nobody in |
| `UserRoutes.DeletedCompanyLoginUnanswered` | src/routes/userRoutes.js:62-70 | a user whose company was deleted is logged in but gets no reply |
| `UserRoutes.LogInUser` | src/routes/userRoutes.js:58-59 | on the session: a login stores the user's email and clears the company login; any other outcome leaves the session as it was |
| `UserRoutes.LogOut` | src/routes/userRoutes.js:82-87 | no login needed; the user is always removed; no error: 200 "Logged out successfully" and the company login ends too; an error: 500 and the company stays |
| `UserRoutes.SessionCheck` | src/routes/userRoutes.js:145-150 | always 200; authenticated exactly when the session's username names a stored user, then with that user and no credential; otherwise no user |
| `UserRoutes.LoggedInUserAuthenticated` | src/routes/userRoutes.js:145-148 | right after a login, the session check reports exactly the logged-in user |
| `UserRoutes.UpdateUser` | src/routes/userRoutes.js:96-114 | 403 exactly on an identity mismatch; 404 exactly when no user of the path company has the id; 500 when another user holds the new email; every failure leaves the store unchanged; 200 patches only that user (`ApplyPatch` sets any field the body names but `_id`, the credential included) and returns it without credential; both unique indexes are kept |
| `UserRoutes.UpdateDuplicateOnlyOnTakenEmail` | src/routes/userRoutes.js:107 | under the unique indexes the update fails as a duplicate exactly when it sets an email another user holds |
| `UserRoutes.RemoveUser` | src/routes/userRoutes.js:121-138 | 403 exactly on an identity mismatch; 404 exactly when no user of the path company has the id, store unchanged; otherwise "User deleted successfully" and exactly that user is removed, the others keeping their natural order; indexes kept |
| `UserRoutes.PutUserAsWritten` | src/routes/userRoutes.js:96-114 | the route as written: the guard's 403s, and 403 whenever `req.companyID` is not the path company, store unchanged |
| `UserRoutes.DeleteUserAsWritten` | src/routes/userRoutes.js:121-138 | the same for delete |
| `UserRoutes.AsWrittenAlwaysForbidden` | src/routes/userRoutes.js:98-100 | with no `req.companyID`, as on this route's requests, update and delete always answer 403 and change nothing |
| `UserRoutes.AsWrittenCounterexample` | src/routes/userRoutes.js:123-125 | company "c1" logged in and its user "u1": as written both routes answer 403; as intended the user is updated, then deleted |
| `UserRoutes.PutUser` | src/routes/userRoutes.js:96-114 | as intended: the guard's 403s; behind a passing guard never 403, only 200, 404 or 500 |
| `UserRoutes.DeleteUser` | src/routes/userRoutes.js:121-138 | as intended: the guard's 403s; behind a passing guard only 200 or 404 |
| `UserRoutes.PutUserUpdatesOwnUser` | src/routes/userRoutes.js:102-109 | behind a passing guard, an existing user of the company is updated when its email is not changed, and only that user |
| `UserRoutes.DeleteUserRemovesOwnUser` | src/routes/userRoutes.js:127-133 | behind a passing guard, an existing user of the company is removed, and no other |
| `UserRoutes.HandleUpdateUser` | src/routes/userRoutes.js:96-114 | the intended update on the session and the store, equal to `PutUser`; invariant kept |
| `UserRoutes.HandleDeleteUser` | src/routes/userRoutes.js:121-138 | the intended delete on the session and the store, equal to `DeleteUser`; invariant kept |

## Left out

- `src/models/Company.js` is not part of this model. The company record is
  inferred from the routes: id, name, email and stored password.
- `CompanyRoutes.CreatedCompanyCanLogIn`: assumes the company save stores
  `h.hash` of the password and that bcrypt accepts that hash. That is what
  `Consistent` states, but the hashing hook in `Company.js` is not modelled.
- `CompanyRoutes.CreateCompany`: why the store refuses a document is a
  parameter. The duplicate-email and schema rules of `Company.js` are not modelled.
  The new `_id` is a parameter too. That the unique `_id` index refuses a
  held id is stated as `HandleCreateCompany`'s precondition: with no
  `saveError`, the id is not held.
- `CompanyRoutes.FormErrors`: the password length is the number of
  characters. The validator library's `isLength` does not count the
  variation selectors U+FE0E and U+FE0F; that exception is not modelled.
- `teams.js` is not part of this model. The two team enums are a parameter
  (`UserModel.Teams`).
- The cryptography is only its axioms: JWT signing and verification, bcrypt,
  and the plugin's salted hash (`Jwt.Sound`, `Common.Consistent`).
- `CompanyRoutes.ListCompanies`: `page` and `limit` are integers. Query
  strings that are not numbers, fractional values, and `currentPage` echoing
  the raw query string are not modelled.
- `CompanyRoutes.CompanyLogin`: the body's email and password are strings.
  Missing fields are not modelled. A missing email becomes
  `findOne({ email: undefined })`, which finds no company when every stored
  company has an email, giving 401. A missing password with a found company
  makes bcrypt throw, giving 500.
- `UserRoutes.Register`: the body's email is a string. A missing email field
  in the `findOne` filter is not modelled; an empty email is.
- `UserRoutes.UserLogin`: a store failure during the strategy's lookup is the
  `lookupError` parameter. `"Missing credentials"` and
  `"Password or username is incorrect"` are the default messages of the
  local strategy and the plugin; they do not appear in this repository's files.
- `UserRoutes.ResolveCredentials`: the local strategy is a library, not part
  of this repository's files. Its body-then-query lookup is modelled;
  `UserRoutes.UserLogin` and `UserRoutes.Strategy` take the resolved
  credentials. Bracketed field names and non-string values are not modelled.
- `UserRoutes.UpdateUser`: the update applies to the document matched by id
  and company, which under the unique `_id` index is the one
  `findByIdAndUpdate` selects. The body can overwrite the plugin's `hash`
  path (`UserPatch.hash`). The model keeps hash and salt as one credential
  string, so a body that sets only `salt` is not modelled. Also not modelled:
  fields outside the schema and the plugin's paths, the `updatedAt`
  timestamp, and cast errors.
- `UserRoutes.LogInUser`, `UserRoutes.LogOut`: assume passport 0.6 or later,
  where the session is regenerated. A regenerated session is modelled as
  clearing the fields of the same session object.
- `UserRoutes.LogInUser`, `UserRoutes.LogOut`: when `req.logIn` or
  `req.logout` reports an error, the model keeps `session.companyID`. This
  is weaker than the libraries: by then passport may already have
  regenerated the session, and express-session builds the new session even
  when destroying the old one fails. So the company login may in fact be gone.
- `UserRoutes.SessionCheck`: passport's deletion of a session username that no
  longer names a user is not modelled.
- Identifiers that are not valid ObjectIds make Mongoose throw a cast error,
  which each handler's `catch` answers: 500 in most routes, 400 in company
  update. This is not modelled: ids are plain strings. The session stores the
  company id as an ObjectId; the model uses its string form, as the session
  store serialises it.
- Routing and mount order are not modelled. The company routes are mounted
  first, so `GET /:companyID/users/:userID` also matches
  `GET /:companyID/users/session`; the model treats the session check as
  reachable.
- The race between the register route's `findOne` and the plugin's insert is
  concurrency and is not modelled.
- Not modelled: server start-up, the database connection, helmet, CORS, rate
  limiting, session configuration, the global error handler and logging
  (`src/app.js`). Also not modelled: the Objective and KeyResult schemas and
  the objective stub route.

## Findings

| source | as written | input that shows it | evidently intended | confidence | as-written member | corrected member |
|---|---|---|---|---|---|---|
| src/routes/userRoutes.js:98-100 | the update handler compares the path with `req.companyID`, which only the bearer-token guard sets, and that guard is not on this route | session company "c1", `PUT /c1/users/u1` for user "u1" of "c1": 403 "You can only update users within your own company" | compare with the session's company, which the session guard has checked (the route's comment at userRoutes.js:93 states another intent, users updating themselves and admins any user, that no code on the route implements; the correction follows the session guard) | high, not executed | UserRoutes.PutUserAsWritten | UserRoutes.PutUser |
| src/routes/userRoutes.js:123-125 | the delete handler makes the same comparison with `req.companyID` | session company "c1", `DELETE /c1/users/u1` for user "u1" of "c1": 403 "You can only delete users within your own company" | compare with the session's company | high, not executed | UserRoutes.DeleteUserAsWritten | UserRoutes.DeleteUser |

`UserRoutes.AsWrittenAlwaysForbidden` and `UserRoutes.AsWrittenCounterexample`
exhibit both discrepancies. The store methods `UserRoutes.HandleUpdateUser` and
`UserRoutes.HandleDeleteUser` implement the corrected routes.
