/** The handlers of `src/routes/companyRoutes.js`: company creation with its
    request validation, the paginated company list, get / update / delete by
    id, the company login, and the two session-guarded user queries. Each
    handler is a function of the store and the request giving the response
    (and the new collection, where it writes); the `Handle...` methods
    perform the same steps on the store and the session in place. */
module CompanyRoutes {
  import opened Common
  import opened CompanyModel
  import opened UserModel
  import opened Http
  import opened Jwt
  import opened Store
  import CompanySessionGuard
  import TokenGuard

  /** A handler's answer together with the `companies` collection it leaves. */
  datatype CompanyChange = CompanyChange(response: Response, companies: seq<Company>)

  // ---------------------------------------------------------------- POST /companies

  /** The request body fields the create route reads. */
  datatype CompanyForm = CompanyForm(name: Option<string>, email: Option<string>, password: Option<string>)

  const NameRequired: string := "Name is required"
  const InvalidEmail: string := "Invalid email"
  const PasswordTooShort: string := "Password must be at least 6 characters"
  const MinPasswordLength: nat := 6

  /** The position of a field's rule in the validator chain: name, email, password. */
  function ChainRank(path: string): nat {
    if path == "name" then 0 else if path == "email" then 1 else 2
  }

  /** The validator chain's error list, in chain order. `isEmail` is the
      validator library's email check, taken as given. */
  function FormErrors(f: CompanyForm, isEmail: string -> bool): (errs: seq<FieldError>)
    ensures errs == [] <==>
      OrEmpty(f.name) != "" && isEmail(OrEmpty(f.email)) && |OrEmpty(f.password)| >= MinPasswordLength
    ensures FieldError("name", NameRequired) in errs <==> OrEmpty(f.name) == ""
    ensures FieldError("email", InvalidEmail) in errs <==> !isEmail(OrEmpty(f.email))
    ensures FieldError("password", PasswordTooShort) in errs <==> |OrEmpty(f.password)| < MinPasswordLength
    // nothing but the three rules' messages, each at most once, in chain order
    ensures forall e :: e in errs ==>
      e in [FieldError("name", NameRequired), FieldError("email", InvalidEmail), FieldError("password", PasswordTooShort)]
    ensures forall i, j :: 0 <= i < j < |errs| ==> ChainRank(errs[i].path) < ChainRank(errs[j].path)
    ensures |errs| <= 3
  {
    (if OrEmpty(f.name) == "" then [FieldError("name", NameRequired)] else [])
    + (if !isEmail(OrEmpty(f.email)) then [FieldError("email", InvalidEmail)] else [])
    + (if |OrEmpty(f.password)| < MinPasswordLength then [FieldError("password", PasswordTooShort)] else [])
  }

  /** `new Company(req.body)` once saved under `id`; `h.hash` is what the save
      does to the password. */
  function NewCompany(f: CompanyForm, h: Hasher, id: Id): Company {
    Company(id, OrEmpty(f.name), OrEmpty(f.email), h.hash(OrEmpty(f.password)))
  }

  /** The create handler. `id` is the `_id` of the new document: the body's
      `_id` when it has one, otherwise a fresh one. `saveError` is the store's
      refusal, if it refuses the document, as the unique `_id` index does when
      `id` is already held. */
  function CreateCompany(cs: seq<Company>, f: CompanyForm, isEmail: string -> bool, h: Hasher,
                         saveError: Option<string>, id: Id): (r: CompanyChange)
    ensures r.response.status == 201 <==> FormErrors(f, isEmail) == [] && saveError.None?
    ensures r.response.status != 201 ==> r.response.status == 400 && r.companies == cs
    ensures FormErrors(f, isEmail) != [] ==> r.response.body == ValidationErrorsBody(FormErrors(f, isEmail))
    ensures FormErrors(f, isEmail) == [] && saveError.Some? ==>
      r.response.body == LibraryErrorBody(SaveRejected(saveError.value))
    ensures r.response.status == 201 ==>
      && r.response.body.CompanyDocBody?
      && r.companies == cs + [r.response.body.company]
      && r.response.body.company == Company(id, OrEmpty(f.name), OrEmpty(f.email), h.hash(OrEmpty(f.password)))
    ensures CompanyIdsUnique(cs) && (saveError.None? ==> forall c :: c in cs ==> c.id != id) ==>
      CompanyIdsUnique(r.companies)
  {
    var errs := FormErrors(f, isEmail);
    if errs != [] then CompanyChange(Response(400, ValidationErrorsBody(errs)), cs)
    else if saveError.Some? then CompanyChange(Response(400, LibraryErrorBody(SaveRejected(saveError.value))), cs)
    else CompanyChange(Response(201, CompanyDocBody(NewCompany(f, h, id))), cs + [NewCompany(f, h, id)])
  }

  method HandleCreateCompany(db: Db, f: CompanyForm, isEmail: string -> bool, h: Hasher,
                             saveError: Option<string>, id: Id) returns (res: Response)
    requires db.Valid()
    // the unique `_id` index: a save of a held id is refused
    requires saveError.None? ==> forall c :: c in db.companies ==> c.id != id
    modifies db
    ensures db.Valid() && db.users == old(db.users)
    ensures var r := CreateCompany(old(db.companies), f, isEmail, h, saveError, id);
      res == r.response && db.companies == r.companies
  {
    var errs := FormErrors(f, isEmail);
    if errs != [] {
      return Response(400, ValidationErrorsBody(errs));
    }
    if saveError.Some? {
      return Response(400, LibraryErrorBody(SaveRejected(saveError.value)));
    }
    var saved := NewCompany(f, h, id);
    db.companies := db.companies + [saved];
    res := Response(201, CompanyDocBody(saved));
  }

  // ---------------------------------------------------------------- GET /companies

  const DefaultPage: int := 1
  const DefaultLimit: int := 10

  /** The `page` and `limit` query values, as numbers, when given. */
  datatype PageQuery = PageQuery(page: Option<int>, limit: Option<int>)

  function Abs(x: int): nat { if x < 0 then -x else x }

  function Min(a: int, b: int): int { if a <= b then a else b }

  /** `Math.ceil(a / b)` on exact quotients. */
  function CeilDiv(a: int, b: int): (q: int)
    requires b != 0
    ensures b > 0 ==> (q - 1) * b < a <= q * b
    ensures b < 0 ==> q * b <= a < (q - 1) * b
  {
    if b > 0 then
      var n := -a;
      assert n == (n / b) * b + n % b;
      assert -(n / b) * b == -((n / b) * b);
      -(n / b)
    else
      var m := -b;
      assert a == (a / m) * m + a % m;
      assert -(a / m) * b == (a / m) * m;
      -(a / m)
  }

  /** `totalPages`: `Math.ceil(count / limit)`; for `limit` 0 the quotient is
      `Infinity` or `NaN`, which the JSON response renders as `null` (here `None`). */
  function TotalPages(count: nat, limit: int): (t: Option<int>)
    ensures t.None? <==> limit == 0
    ensures limit > 0 ==> t.value >= 0 && (t.value == 0 <==> count == 0)
    ensures limit > 0 ==> (t.value - 1) * limit < count <= t.value * limit
  {
    if limit == 0 then None else Some(CeilDiv(count, limit))
  }

  /** `.skip(skip).limit(limit)` in the database: `limit(0)` sets no limit, and
      a negative limit returns at most its absolute value. */
  function Window(cs: seq<Company>, skip: nat, limit: int): (w: seq<Company>)
    ensures |w| == (if skip >= |cs| then 0
                    else if limit == 0 then |cs| - skip
                    else Min(|cs| - skip, Abs(limit)))
    ensures forall i :: 0 <= i < |w| ==> skip + i < |cs| && w[i] == cs[skip + i]
  {
    var rest := if skip <= |cs| then cs[skip..] else [];
    if limit == 0 || Abs(limit) >= |rest| then rest else rest[..Abs(limit)]
  }

  /** The list handler: defaults page 1 and limit 10, skips `(page - 1) * limit`
      companies, and a negative skip is refused by the database (500). */
  function ListCompanies(cs: seq<Company>, q: PageQuery): (r: Response)
    ensures var page, limit := Or(q.page, DefaultPage), Or(q.limit, DefaultLimit);
      && (r.status == 500 <==> (page - 1) * limit < 0)
      && (r.status == 500 ==> r.body == LibraryErrorBody(NegativeSkip))
      && (r.status != 500 ==>
            && r.status == 200 && r.body.CompanyPageBody?
            && r.body.currentPage == page
            && r.body.totalPages == TotalPages(|cs|, limit)
            && r.body.companies == Window(cs, (page - 1) * limit, limit))
  {
    var page, limit := Or(q.page, DefaultPage), Or(q.limit, DefaultLimit);
    var skip := (page - 1) * limit;
    if skip < 0 then Response(500, LibraryErrorBody(NegativeSkip))
    else Response(200, CompanyPageBody(Window(cs, skip, limit), TotalPages(|cs|, limit), page))
  }

  lemma MulMonotone(a: int, b: int, c: int)
    requires a <= b && c >= 0
    ensures a * c <= b * c
  {
    assert b * c - a * c == (b - a) * c;
  }

  /** Without query values: the first ten companies, page 1, and
      `ceil(count / 10)` pages. */
  lemma DefaultListing(cs: seq<Company>)
    ensures var r := ListCompanies(cs, PageQuery(None, None));
      && r.status == 200
      && r.body.companies == cs[..Min(|cs|, DefaultLimit)]
      && r.body.currentPage == 1
      && r.body.totalPages == Some(CeilDiv(|cs|, DefaultLimit))
  {
    var w := Window(cs, 0, DefaultLimit);
    assert w == cs[..Min(|cs|, DefaultLimit)];
  }

  /** With a positive limit, a page holds at most `limit` companies, and it
      holds some exactly when it is one of the `totalPages` pages. */
  lemma {:induction false} PagesWithinTotal(cs: seq<Company>, limit: int, page: int)
    requires limit > 0 && page >= 1
    ensures var r := ListCompanies(cs, PageQuery(Some(page), Some(limit)));
      && r.status == 200
      && |r.body.companies| <= limit
      && (|r.body.companies| > 0 <==> page <= r.body.totalPages.value)
  {
    MulMonotone(0, page - 1, limit);
    var tp := CeilDiv(|cs|, limit);
    if page <= tp {
      MulMonotone(page - 1, tp - 1, limit);
    } else {
      MulMonotone(tp, page - 1, limit);
    }
  }

  /** With a positive limit, the company at index `i` is listed on page
      `i / limit + 1`, at position `i % limit`. */
  lemma {:induction false} EveryCompanyOnItsPage(cs: seq<Company>, limit: int, i: nat)
    requires limit > 0 && i < |cs|
    ensures var r := ListCompanies(cs, PageQuery(Some(i / limit + 1), Some(limit)));
      && r.status == 200
      && i % limit < |r.body.companies|
      && r.body.companies[i % limit] == cs[i]
  {
    var skip := (i / limit + 1 - 1) * limit;
    assert skip == (i / limit) * limit;
    assert i == (i / limit) * limit + i % limit;
    MulMonotone(0, i / limit, limit);
  }

  // ---------------------------------------------------------------- /companies/:id

  const CompanyNotFoundMessage: string := "Company not found"
  const CompanyDeletedMessage: string := "Company deleted successfully"

  function GetCompany(cs: seq<Company>, id: Id): (r: Response)
    ensures r.status == 404 <==> forall c :: c in cs ==> c.id != id
    ensures r.status == 404 ==> r.body == ErrorBody(CompanyNotFoundMessage)
    ensures r.status != 404 ==>
      r.status == 200 && r.body.CompanyDocBody? && r.body.company in cs && r.body.company.id == id
  {
    match CompanyById(cs, id)
    case None => Response(404, ErrorBody(CompanyNotFoundMessage))
    case Some(c) => Response(200, CompanyDocBody(c))
  }

  /** The update body: each field given replaces the stored one. */
  datatype CompanyPatch = CompanyPatch(name: Option<string>, email: Option<string>, password: Option<string>)

  function Patched(c: Company, p: CompanyPatch): Company {
    Company(c.id, Or(p.name, c.name), Or(p.email, c.email), Or(p.password, c.password))
  }

  /** `findByIdAndUpdate(id, body, { new: true })`. */
  function UpdateCompany(cs: seq<Company>, id: Id, patch: CompanyPatch): (r: CompanyChange)
    ensures r.response.status == 404 <==> forall c :: c in cs ==> c.id != id
    ensures r.response.status == 404 ==>
      r == CompanyChange(Response(404, ErrorBody(CompanyNotFoundMessage)), cs)
    ensures r.response.status != 404 ==>
      && r.response.status == 200
      && r.response.body == CompanyDocBody(Patched(CompanyById(cs, id).value, patch))
      && |r.companies| == |cs|
    ensures r.response.status == 200 && CompanyIdsUnique(cs) ==>
      forall j :: 0 <= j < |cs| ==>
        r.companies[j] == if cs[j].id == id then Patched(cs[j], patch) else cs[j]
    ensures CompanyIdsUnique(cs) ==> CompanyIdsUnique(r.companies)
  {
    match FirstIndex(cs, (c: Company) => c.id == id)
    case None => CompanyChange(Response(404, ErrorBody(CompanyNotFoundMessage)), cs)
    case Some(i) =>
      var updated := Patched(cs[i], patch);
      CompanyChange(Response(200, CompanyDocBody(updated)), cs[i := updated])
  }

  method HandleUpdateCompany(db: Db, id: Id, patch: CompanyPatch) returns (res: Response)
    requires db.Valid()
    modifies db
    ensures db.Valid() && db.users == old(db.users)
    ensures var r := UpdateCompany(old(db.companies), id, patch);
      res == r.response && db.companies == r.companies
  {
    var found := FirstIndex(db.companies, (c: Company) => c.id == id);
    if found.None? {
      return Response(404, ErrorBody(CompanyNotFoundMessage));
    }
    var updated := Patched(db.companies[found.value], patch);
    db.companies := db.companies[found.value := updated];
    res := Response(200, CompanyDocBody(updated));
  }

  /** `findByIdAndDelete(id)`: removes that company and no other. Its users
      are left in place. */
  function DeleteCompany(cs: seq<Company>, id: Id): (r: CompanyChange)
    ensures r.response.status == 404 <==> forall c :: c in cs ==> c.id != id
    ensures r.response.status == 404 ==>
      r == CompanyChange(Response(404, ErrorBody(CompanyNotFoundMessage)), cs)
    ensures r.response.status != 404 ==>
      r.response == Response(200, MessageBody(CompanyDeletedMessage)) && |r.companies| == |cs| - 1
    // the others keep their natural order
    ensures r.response.status != 404 ==>
      exists i :: 0 <= i < |cs| && cs[i].id == id && r.companies == cs[..i] + cs[i + 1..]
    ensures CompanyIdsUnique(cs) ==>
      && CompanyIdsUnique(r.companies)
      && forall c :: c in r.companies <==> c in cs && c.id != id
  {
    match FirstIndex(cs, (c: Company) => c.id == id)
    case None => CompanyChange(Response(404, ErrorBody(CompanyNotFoundMessage)), cs)
    case Some(i) =>
      RemoveAtKeepsOthers(cs, i);
      CompanyChange(Response(200, MessageBody(CompanyDeletedMessage)), cs[..i] + cs[i + 1..])
  }

  /** Removing index `i` of a collection with unique ids removes exactly the
      company with `cs[i]`'s id. */
  lemma {:induction false} RemoveAtKeepsOthers(cs: seq<Company>, i: nat)
    requires i < |cs|
    ensures var rest := cs[..i] + cs[i + 1..];
      && |rest| == |cs| - 1
      && (forall j :: 0 <= j < |rest| ==> rest[j] == if j < i then cs[j] else cs[j + 1])
      && (CompanyIdsUnique(cs) ==>
            && CompanyIdsUnique(rest)
            && forall c :: c in rest <==> c in cs && c.id != cs[i].id)
  {
    var rest := cs[..i] + cs[i + 1..];
    assert forall j :: 0 <= j < |rest| ==> rest[j] == if j < i then cs[j] else cs[j + 1];
    if CompanyIdsUnique(cs) {
      forall c
        ensures c in rest <==> c in cs && c.id != cs[i].id
      {
        if c in rest {
          var j :| 0 <= j < |rest| && rest[j] == c;
          if j < i { assert cs[j].id != cs[i].id; } else { assert cs[i].id != cs[j + 1].id; }
        }
        if c in cs && c.id != cs[i].id {
          var k :| 0 <= k < |cs| && cs[k] == c;
          if k < i { assert rest[k] == c; } else { assert k > i && rest[k - 1] == c; }
        }
      }
    }
  }

  method HandleDeleteCompany(db: Db, id: Id) returns (res: Response)
    requires db.Valid()
    modifies db
    ensures db.Valid() && db.users == old(db.users)
    ensures var r := DeleteCompany(old(db.companies), id);
      res == r.response && db.companies == r.companies
  {
    var found := FirstIndex(db.companies, (c: Company) => c.id == id);
    if found.None? {
      return Response(404, ErrorBody(CompanyNotFoundMessage));
    }
    var i := found.value;
    RemoveAtKeepsOthers(db.companies, i);
    db.companies := db.companies[..i] + db.companies[i + 1..];
    res := Response(200, MessageBody(CompanyDeletedMessage));
  }

  // ---------------------------------------------------------------- POST /companies/login

  const LoginFailedMessage: string := "Invalid email or password"
  const LoginSucceededMessage: string := "Company login successful"

  /** The login answer and the company id it writes into the session, if any. */
  datatype CompanyLoginOutcome = CompanyLoginOutcome(response: Response, sessionCompany: Option<Id>)

  /** The login handler: `bcrypt.matches` is the password comparison, `sg`
      and `key` sign the token, `now` is the clock in seconds. */
  function CompanyLogin(cs: seq<Company>, email: string, password: string, bcrypt: Hasher,
                        sg: Signer, key: string, now: int): (r: CompanyLoginOutcome)
    // one answer for both failures: no such email, or a wrong password
    ensures r.sessionCompany.None? ==> r.response == Response(401, ErrorBody(LoginFailedMessage))
    ensures r.sessionCompany.Some? <==>
      CompanyByEmail(cs, email).Some? && bcrypt.matches(password, CompanyByEmail(cs, email).value.password)
    // success: the session gets the company, the token its id and email for one hour,
    // and the response shows id, name and email only
    ensures r.sessionCompany.Some? ==>
      var c := CompanyByEmail(cs, email).value;
      && r.sessionCompany == Some(c.id)
      && r.response == Response(200, CompanyLoginBody(LoginSucceededMessage,
                                                      sg.sign(Payload(c.id, c.email), key, now, TokenLifetime),
                                                      CompanyView(c.id, c.name, c.email)))
  {
    match CompanyByEmail(cs, email)
    case None => CompanyLoginOutcome(Response(401, ErrorBody(LoginFailedMessage)), None)
    case Some(c) =>
      if !bcrypt.matches(password, c.password) then
        CompanyLoginOutcome(Response(401, ErrorBody(LoginFailedMessage)), None)
      else
        var token := sg.sign(Payload(c.id, c.email), key, now, TokenLifetime);
        CompanyLoginOutcome(Response(200, CompanyLoginBody(LoginSucceededMessage, token, CompanyView(c.id, c.name, c.email))),
                            Some(c.id))
  }

  /** The login handler on the session: a success writes the company id into
      it, a failure leaves it as it was. */
  method HandleCompanyLogin(session: Session, cs: seq<Company>, email: string, password: string,
                            bcrypt: Hasher, sg: Signer, key: string, now: int) returns (res: Response)
    modifies session
    ensures var r := CompanyLogin(cs, email, password, bcrypt, sg, key, now);
      && res == r.response
      && session.companyID == (if r.sessionCompany.Some? then r.sessionCompany else old(session.companyID))
      && session.passportUser == old(session.passportUser)
  {
    var found := CompanyByEmail(cs, email);
    if found.None? {
      return Response(401, ErrorBody(LoginFailedMessage));
    }
    var company := found.value;
    if !bcrypt.matches(password, company.password) {
      return Response(401, ErrorBody(LoginFailedMessage));
    }
    session.companyID := Some(company.id);
    var token := sg.sign(Payload(company.id, company.email), key, now, TokenLifetime);
    res := Response(200, CompanyLoginBody(LoginSucceededMessage, token, CompanyView(company.id, company.name, company.email)));
  }

  /** An unknown email and a wrong password are answered identically. */
  lemma LoginFailuresIndistinguishable(cs: seq<Company>, unknown: string, known: string, wrong: string,
                                       bcrypt: Hasher, sg: Signer, key: string, now: int)
    requires CompanyByEmail(cs, unknown).None?
    requires CompanyByEmail(cs, known).Some? && !bcrypt.matches(wrong, CompanyByEmail(cs, known).value.password)
    ensures CompanyLogin(cs, unknown, wrong, bcrypt, sg, key, now).response
            == CompanyLogin(cs, known, wrong, bcrypt, sg, key, now).response
            == Response(401, ErrorBody(LoginFailedMessage))
    ensures CompanyLogin(cs, unknown, wrong, bcrypt, sg, key, now).sessionCompany.None?
    ensures CompanyLogin(cs, known, wrong, bcrypt, sg, key, now).sessionCompany.None?
  {
  }

  /** The token a login returns, presented as `Bearer <token>` to the
      bearer-token guard within the hour and under the same `JWT_SECRET`
      setting, is admitted with the company the login wrote into the session. */
  lemma {:induction false} LoginTokenAdmitted(cs: seq<Company>, email: string, password: string, bcrypt: Hasher,
                                              sg: Signer, env: Option<string>, iat: int, now: int)
    requires Sound(sg)
    requires CompanyLogin(cs, email, password, bcrypt, sg, SigningKey(env), iat).sessionCompany.Some?
    requires now < iat + TokenLifetime
    ensures var r := CompanyLogin(cs, email, password, bcrypt, sg, SigningKey(env), iat);
      TokenGuard.Authenticate(Some(TokenGuard.BearerPrefix + r.response.body.token), sg, SigningKey(env), now)
      == TokenGuard.Admitted(r.sessionCompany)
  {
    var c := CompanyByEmail(cs, email).value;
    TokenGuard.BearerTokenAdmitted(sg, SigningKey(env), Payload(c.id, c.email), iat, now);
  }

  /** A company created with a valid form can log in with the same email and
      password, provided no earlier company has that email and the save-time
      hash matches its password. */
  lemma {:induction false} CreatedCompanyCanLogIn(cs: seq<Company>, f: CompanyForm, isEmail: string -> bool,
                                                  h: Hasher, id: Id, sg: Signer, key: string, now: int)
    requires Consistent(h)
    requires FormErrors(f, isEmail) == []
    requires forall c :: c in cs ==> c.email != OrEmpty(f.email)
    ensures var created := CreateCompany(cs, f, isEmail, h, None, id).companies;
      CompanyLogin(created, OrEmpty(f.email), OrEmpty(f.password), h, sg, key, now).sessionCompany == Some(id)
  {
    var c := NewCompany(f, h, id);
    assert forall j :: 0 <= j < |cs| ==> cs[j] in cs;
    FirstIndexAfter(cs, c, (x: Company) => x.email == OrEmpty(f.email));
  }

  // ---------------------------------------------------------------- GET /:companyID/users[/:userID]


  /** `User.find({ company }).select('-password')`: the company's users in
      natural order, each without its credential. */
  function CompanyUsers(users: seq<UserDoc>, company: Id): (r: seq<PublicUser>)
    ensures |r| <= |users|
    ensures forall p :: p in r ==> p.company == company && exists u :: u in users && Public(u) == p
    ensures forall u :: u in users && u.company == company ==> Public(u) in r
  {
    if |users| == 0 then []
    else (if users[0].company == company then [Public(users[0])] else []) + CompanyUsers(users[1..], company)
  }

  /** Entry `k` of the listing `r` is the user at index `idx[k]`, of the company. */
  ghost predicate ListsAt(users: seq<UserDoc>, company: Id, r: seq<PublicUser>, idx: seq<nat>) {
    && |idx| == |r|
    && forall k :: 0 <= k < |idx| ==>
         idx[k] < |users| && users[idx[k]].company == company && r[k] == Public(users[idx[k]])
  }

  /** The indices increase: collection order, and no user twice. */
  ghost predicate Increasing(idx: seq<nat>) {
    forall k, l :: 0 <= k < l < |idx| ==> idx[k] < idx[l]
  }

  /** Every user of the company has its index in `idx`. */
  ghost predicate Covers(users: seq<UserDoc>, company: Id, idx: seq<nat>) {
    forall i :: 0 <= i < |users| && users[i].company == company ==> i in idx
  }

  /** `idx` maps the listing `r` onto the indices of the company's users, in
      collection order, each user once. */
  ghost predicate ListsInOrder(users: seq<UserDoc>, company: Id, r: seq<PublicUser>, idx: seq<nat>) {
    ListsAt(users, company, r, idx) && Increasing(idx) && Covers(users, company, idx)
  }

  /** Every index moved one place on, for a listing of the collection's tail. */
  ghost function ShiftIndices(idx: seq<nat>): (t: seq<nat>)
    ensures |t| == |idx| && forall k :: 0 <= k < |idx| ==> t[k] == idx[k] + 1
  {
    seq(|idx|, k requires 0 <= k < |idx| => idx[k] + 1)
  }

  lemma {:induction false} ListsAtStep(users: seq<UserDoc>, company: Id, r: seq<PublicUser>, rest: seq<nat>)
    requires |users| > 0
    requires ListsAt(users[1..], company, r, rest)
    ensures ListsAt(users, company, r, ShiftIndices(rest))
    ensures users[0].company == company ==>
      ListsAt(users, company, [Public(users[0])] + r, [0] + ShiftIndices(rest))
  {
    var shifted := ShiftIndices(rest);
    forall k | 0 <= k < |rest|
      ensures shifted[k] < |users| && users[shifted[k]] == users[1..][rest[k]]
    {
    }
    if users[0].company == company {
      var idx := [0] + shifted;
      var listed := [Public(users[0])] + r;
      forall k | 1 <= k < |idx|
        ensures idx[k] == shifted[k - 1] && listed[k] == r[k - 1]
      {
      }
    }
  }

  lemma {:induction false} IncreasingStep(rest: seq<nat>)
    requires Increasing(rest)
    ensures Increasing(ShiftIndices(rest)) && Increasing([0] + ShiftIndices(rest))
  {
    var idx := [0] + ShiftIndices(rest);
    forall k | 1 <= k < |idx|
      ensures idx[k] == rest[k - 1] + 1
    {
    }
  }

  lemma {:induction false} CoversStep(users: seq<UserDoc>, company: Id, rest: seq<nat>)
    requires |users| > 0
    requires Covers(users[1..], company, rest)
    ensures users[0].company != company ==> Covers(users, company, ShiftIndices(rest))
    ensures Covers(users, company, [0] + ShiftIndices(rest))
  {
    var shifted := ShiftIndices(rest);
    forall i | 1 <= i < |users| && users[i].company == company
      ensures i in shifted
    {
      assert users[1..][i - 1] == users[i];
      var k :| 0 <= k < |rest| && rest[k] == i - 1;
      assert shifted[k] == i;
    }
  }

  /** The listing is the company's users, each once, in collection order. */
  lemma {:induction false} CompanyUsersInOrder(users: seq<UserDoc>, company: Id)
    ensures exists idx :: ListsInOrder(users, company, CompanyUsers(users, company), idx)
    decreases |users|
  {
    if |users| == 0 {
      assert CompanyUsers(users, company) == [];
      assert ListsInOrder(users, company, [], []);
    } else {
      CompanyUsersInOrder(users[1..], company);
      var r := CompanyUsers(users[1..], company);
      var rest :| ListsInOrder(users[1..], company, r, rest);
      ListsAtStep(users, company, r, rest);
      IncreasingStep(rest);
      CoversStep(users, company, rest);
      if users[0].company == company {
        assert CompanyUsers(users, company) == [Public(users[0])] + r;
        assert ListsInOrder(users, company, CompanyUsers(users, company), [0] + ShiftIndices(rest));
      } else {
        assert CompanyUsers(users, company) == r;
        assert ListsInOrder(users, company, CompanyUsers(users, company), ShiftIndices(rest));
      }
    }
  }

  /** The list handler behind the guard; it repeats the guard's identity check. */
  function UsersHandler(sessionCompany: Option<Id>, path: Id, users: seq<UserDoc>): Response {
    if sessionCompany != Some(path) then Response(403, ErrorBody(CompanySessionGuard.OtherCompanyMessage))
    else Response(200, UserListBody(CompanyUsers(users, path)))
  }

  /** `GET /:companyID/users`: the session guard, then the handler. */
  function ListUsersRoute(sessionCompany: Option<Id>, path: Id, users: seq<UserDoc>): (r: Response)
    ensures r.status == 200 <==> Truthy(sessionCompany) && sessionCompany.value == path
    ensures r.status != 200 ==> r == CompanySessionGuard.Authorize(sessionCompany, path).response
    ensures r.status == 200 ==>
      && r.body.UserListBody?
      && (forall p :: p in r.body.users ==> p.company == path && exists u :: u in users && Public(u) == p)
      && (forall u :: u in users && u.company == path ==> Public(u) in r.body.users)
      && exists idx :: ListsInOrder(users, path, r.body.users, idx)
  {
    match CompanySessionGuard.Authorize(sessionCompany, path)
    case Halt(response) => response
    case Next =>
      CompanyUsersInOrder(users, path);
      UsersHandler(sessionCompany, path, users)
  }

  /** The handler's own identity check never fires behind the guard. */
  lemma UsersRecheckRedundant(sessionCompany: Option<Id>, path: Id, users: seq<UserDoc>)
    requires CompanySessionGuard.Authorize(sessionCompany, path).Next?
    ensures UsersHandler(sessionCompany, path, users).status == 200
  {
  }

  /** The single-user handler behind the guard: `findOne({ _id, company })`. */
  function UserHandler(sessionCompany: Option<Id>, path: Id, userID: Id, users: seq<UserDoc>): Response {
    if sessionCompany != Some(path) then Response(403, ErrorBody(CompanySessionGuard.OtherCompanyMessage))
    else match FirstIndex(users, (u: UserDoc) => u.id == userID && u.company == path)
      case None => Response(404, ErrorBody(UserNotFoundMessage))
      case Some(i) => Response(200, UserDocBody(Public(users[i])))
  }

  /** `GET /:companyID/users/:userID`: the session guard, then the handler. */
  function GetUserRoute(sessionCompany: Option<Id>, path: Id, userID: Id, users: seq<UserDoc>): (r: Response)
    ensures CompanySessionGuard.Authorize(sessionCompany, path).Halt? ==>
      r == CompanySessionGuard.Authorize(sessionCompany, path).response
    ensures CompanySessionGuard.Authorize(sessionCompany, path).Next? ==>
      && (r.status == 404 <==> forall u :: u in users ==> !(u.id == userID && u.company == path))
      && (r.status == 404 ==> r.body == ErrorBody(UserNotFoundMessage))
      && (r.status != 404 ==>
            r.status == 200 && r.body.UserDocBody?
            && exists u :: u in users && u.id == userID && u.company == path && r.body.user == Public(u))
  {
    match CompanySessionGuard.Authorize(sessionCompany, path)
    case Halt(response) => response
    case Next => UserHandler(sessionCompany, path, userID, users)
  }

  /** A user of another company is not found, even by its exact id. */
  lemma {:induction false} OtherCompanysUserNotFound(sessionCompany: Option<Id>, path: Id, users: seq<UserDoc>, v: UserDoc)
    requires CompanySessionGuard.Authorize(sessionCompany, path).Next?
    requires UserIdsUnique(users)
    requires v in users && v.company != path
    ensures GetUserRoute(sessionCompany, path, v.id, users) == Response(404, ErrorBody(UserNotFoundMessage))
  {
    forall u | u in users
      ensures !(u.id == v.id && u.company == path)
    {
      var a :| 0 <= a < |users| && users[a] == u;
      var b :| 0 <= b < |users| && users[b] == v;
      if a < b { assert users[a].id != users[b].id; }
      else if b < a { assert users[b].id != users[a].id; }
    }
  }
}
