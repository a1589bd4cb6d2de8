/** The auth service (auth/internal/v1/service/auth.go): registration with an
    emailed verification code, verification, and login issuing a JWT.

    bcrypt, the token signer, the random code generator and the mailer are
    outside the model: their outcomes are parameters, and the password
    comparison is a function the service is built with. */
module AuthService {
  import opened Errors
  import opened Text
  import opened Documents
  import opened Email
  import opened Claims
  import opened AuthRepository

  datatype RegisterRequest = RegisterRequest(fullName: string, email: string, password: string)
  datatype RegisterResponse = RegisterResponse(id: string, email: string, isVerified: bool)
  datatype LoginRequest = LoginRequest(email: string, password: string)
  datatype LoginResponse = LoginResponse(accessToken: string, tokenType: string, expireAt: int)
  datatype VerifyCodeResponse = VerifyCodeResponse(isVerified: bool)

  /** `helper.CheckPasswordHash(hash, password)`. */
  type HashCheck = (string, string) -> bool

  /** Outcomes of the calls RegisterUser makes, in call order: the hash, the
      existence check, the insert (and whether its id came back typed), the
      random code, the code write and the mail. */
  datatype RegisterIo = RegisterIo(hashed: Result<string>, findFault: Option<Error>, insertFault: Option<Error>,
                                   idTyped: bool, code: string, setFault: Option<Error>,
                                   mailFault: Option<Error>, now: int)

  /** Outcomes of LoginUser's calls: the lookup, the token signing, the clock. */
  datatype LoginIo = LoginIo(findFault: Option<Error>, signed: Result<string>, now: int)

  /** Outcomes of VerifyCode's calls: the code read and the status update. */
  datatype VerifyIo = VerifyIo(getFault: Option<Error>, updateFault: Option<Error>)

  /** `validateRegisterUser`. The byte-length test comes first, so an empty
      name already fails it and the empty-name test after it never fires. */
  function ValidateRegisterUser(req: RegisterRequest): (r: Option<Error>)
    ensures r.None? <==> Utf8Len(req.fullName) >= 3 && IsValidEmail(req.email)
    ensures r.Some? ==> HasKind(r.value, Validation)
    ensures Utf8Len(req.fullName) < 3 ==> r == Some(NewError(Validation, "full name must more than 3"))
    ensures Utf8Len(req.fullName) >= 3 && !IsValidEmail(req.email) ==> r == Some(NewError(Validation, "invalid email"))
  {
    if Utf8Len(req.fullName) < 3 then Some(NewError(Validation, "full name must more than 3"))
    else if req.fullName == "" then Some(NewError(Validation, "full name required"))
    else if !IsValidEmail(req.email) then Some(NewError(Validation, "invalid email"))
    else None
  }

  /** Whatever the request, "full name required" is never reported. */
  lemma EmptyNameCheckUnreachable(req: RegisterRequest)
    ensures ValidateRegisterUser(req) != Some(NewError(Validation, "full name required"))
    ensures req.fullName == [] ==> ValidateRegisterUser(req) == Some(NewError(Validation, "full name must more than 3"))
  {
    var full := NewError(Validation, "full name must more than 3").text;
    var required := NewError(Validation, "full name required").text;
    assert full[|KindText(Validation)| + 12] == 'm' && required[|KindText(Validation)| + 12] == 'r';
  }

  /** `validateLoginUser`. */
  function ValidateLoginUser(req: LoginRequest): (r: Option<Error>)
    ensures r.None? <==> IsValidEmail(req.email)
    ensures r.Some? ==> r.value == NewError(Validation, "invalid email")
  {
    if !IsValidEmail(req.email) then Some(NewError(Validation, "invalid email")) else None
  }

  /** The claims generateJWT signs: the user's hex id, name and email, and an
      expiry `hours` after `now` (in Unix seconds). */
  function IssuedClaims(user: User, now: int, hours: int): (c: ClaimMap)
    ensures c.Keys == {UserIdKey, FullNameKey, EmailKey, ExpiresKey}
    ensures c[UserIdKey] == Str(Hex(user.id)) && c[FullNameKey] == Str(user.fullName)
    ensures c[EmailKey] == Str(user.email) && c[ExpiresKey] == Num(now + hours * SecondsPerHour)
  {
    map[UserIdKey := Str(Hex(user.id)), FullNameKey := Str(user.fullName),
        EmailKey := Str(user.email), ExpiresKey := Num(now + hours * SecondsPerHour)]
  }

  // ----- the transitions -----

  function RegisterStep(s: AuthStores, req: RegisterRequest, ttl: int, io: RegisterIo): (Result<RegisterResponse>, AuthStores) {
    match ValidateRegisterUser(req)
    case Some(e) => (Fail(e), s)
    case None =>
      if io.hashed.Fail? then (Fail(io.hashed.err), s)
      else if io.findFault.Some? then (Fail(io.findFault.value), s)
      else if FindByEmailAny(s.users, req.email).Some? then (Fail(NewError(Validation, "email already exists")), s)
      else if io.insertFault.Some? then (Fail(io.insertFault.value), s)
      else
        var s1 := InsertUser(s, User(ObjectId(0), req.fullName, req.email, io.hashed.value, 0, false), io.now);
        if !io.idTyped then (Fail(NewError(Type, "type assertion error")), s1)
        else if io.setFault.Some? then (Fail(io.setFault.value), s1)
        else
          var s2 := SetCode(s1, io.code, req.email, ttl);
          if io.mailFault.Some? then (Fail(io.mailFault.value), s2)
          else (Ok(RegisterResponse(Hex(ObjectId(s.nextId)), req.email, false)), s2)
  }

  function LoginStep(s: AuthStores, req: LoginRequest, hours: int, check: HashCheck, io: LoginIo): Result<LoginResponse> {
    match ValidateLoginUser(req)
    case Some(e) => Fail(e)
    case None =>
      if io.findFault.Some? then Fail(io.findFault.value)
      else match FindVerified(s.users, req.email)
        case None => Fail(NewError(NotFound, "users not found"))
        case Some(i) =>
          if !check(s.users[i].password, req.password) then Fail(NewError(Validation, "invalid password"))
          else if io.signed.Fail? then Fail(io.signed.err)
          else Ok(LoginResponse(io.signed.value, "Bearer", io.now + hours * SecondsPerHour))
  }

  function VerifyStep(s: AuthStores, code: string, io: VerifyIo): (Result<VerifyCodeResponse>, AuthStores) {
    if io.getFault.Some? then (Fail(io.getFault.value), s)
    else if code !in s.codes then (Fail(NewError(NotFound, "code not found / expired")), s)
    else if io.updateFault.Some? then (Fail(io.updateFault.value), s)
    else (Ok(VerifyCodeResponse(true)), MarkVerified(s, s.codes[code].email))
  }

  // ----- properties -----

  /** A request the validator rejects changes neither store, whatever the
      later calls would have done. */
  lemma RegisterValidatesFirst(s: AuthStores, req: RegisterRequest, ttl: int, io: RegisterIo)
    requires ValidateRegisterUser(req).Some?
    ensures RegisterStep(s, req, ttl, io) == (Fail(ValidateRegisterUser(req).value), s)
  {
  }

  /** A successful registration stores exactly one new, unverified user with
      the hashed password, and maps the code to the email with the configured
      TTL; the response carries the new id and IsVerified = false. */
  lemma RegisterSucceeds(s: AuthStores, req: RegisterRequest, ttl: int, io: RegisterIo)
    requires RegisterStep(s, req, ttl, io).0.Ok?
    ensures var (r, t) := RegisterStep(s, req, ttl, io);
      && t.users == s.users + [User(ObjectId(s.nextId), req.fullName, req.email, io.hashed.value, io.now, false)]
      && t.codes == s.codes[io.code := CodeEntry(req.email, ttl)]
      && r.value == RegisterResponse(Hex(ObjectId(s.nextId)), req.email, false)
      && FindByEmailAny(s.users, req.email).None? && IsValidEmail(req.email)
  {
  }

  lemma RegisterStepValid(s: AuthStores, req: RegisterRequest, ttl: int, io: RegisterIo)
    requires AuthValid(s)
    ensures AuthValid(RegisterStep(s, req, ttl, io).1)
  {
    if ValidateRegisterUser(req).None? && io.hashed.Ok? && io.findFault.None?
       && FindByEmailAny(s.users, req.email).None? && io.insertFault.None? {
      InsertUserValid(s, User(ObjectId(0), req.fullName, req.email, io.hashed.value, 0, false), io.now);
    }
  }

  /** An email already registered, verified or not, is refused and nothing is
      written. */
  lemma RegisterDuplicate(s: AuthStores, req: RegisterRequest, ttl: int, io: RegisterIo)
    requires ValidateRegisterUser(req).None? && io.hashed.Ok? && io.findFault.None?
    requires FindByEmailAny(s.users, req.email).Some?
    ensures RegisterStep(s, req, ttl, io) == (Fail(NewError(Validation, "email already exists")), s)
  {
  }

  /** When the mail cannot be sent the user and the code are already stored,
      so registering the same email again is refused. */
  lemma MailFailureStrandsUser(s: AuthStores, req: RegisterRequest, ttl: int, io: RegisterIo, io2: RegisterIo)
    requires ValidateRegisterUser(req).None? && io.hashed.Ok? && io.findFault.None?
    requires FindByEmailAny(s.users, req.email).None? && io.insertFault.None? && io.idTyped
    requires io.setFault.None? && io.mailFault.Some?
    requires io2.hashed.Ok? && io2.findFault.None?
    ensures var (r, t) := RegisterStep(s, req, ttl, io);
      && r == Fail(io.mailFault.value)
      && RegisterStep(t, req, ttl, io2).0 == Fail(NewError(Validation, "email already exists"))
  {
    var t := RegisterStep(s, req, ttl, io).1;
    assert t.users[|s.users|].email == req.email;
  }

  /** An unknown or expired code is NotFound and writes nothing; a known one
      marks the first user with its email verified. */
  lemma VerifyOutcomes(s: AuthStores, code: string)
    ensures var (r, t) := VerifyStep(s, code, VerifyIo(None, None));
      && (code !in s.codes ==> r == Fail(NewError(NotFound, "code not found / expired")) && t == s)
      && (code in s.codes ==> r == Ok(VerifyCodeResponse(true)) && t == MarkVerified(s, s.codes[code].email))
  {
  }

  /** The code is not consumed: verifying it again succeeds and changes
      nothing more. */
  lemma VerifyIdempotent(s: AuthStores, code: string)
    requires code in s.codes
    ensures var t := VerifyStep(s, code, VerifyIo(None, None)).1;
      VerifyStep(t, code, VerifyIo(None, None)) == (Ok(VerifyCodeResponse(true)), t)
  {
    var email := s.codes[code].email;
    var t := MarkVerified(s, email);
    var u := MarkVerified(t, email);
    SameEmailsSameFind(s.users, t.users, email);
    assert u.users == t.users;
  }

  /** Two user lists with the same emails at the same places find an email
      at the same place. */
  lemma SameEmailsSameFind(xs: seq<User>, ys: seq<User>, email: string)
    requires |xs| == |ys| && forall i :: 0 <= i < |xs| ==> xs[i].email == ys[i].email
    ensures FindByEmailAny(xs, email) == FindByEmailAny(ys, email)
  {
    var a, b := FindByEmailAny(xs, email), FindByEmailAny(ys, email);
    if a.Some? {
      assert ys[a.value].email == email;
    }
    if b.Some? {
      assert xs[b.value].email == email;
    }
  }

  /** In a list without `u`'s email, appending `u` puts that email last,
      where the verified search finds it exactly when `u` is verified. */
  lemma AppendFreshEmail(users: seq<User>, u: User)
    requires FindByEmailAny(users, u.email).None?
    ensures FindByEmailAny(users + [u], u.email) == Some(|users|)
    ensures FindVerified(users + [u], u.email) == if u.isVerified then Some(|users|) else None
  {
    var ys := users + [u];
    assert forall j :: 0 <= j < |users| ==> ys[j] == users[j];
    assert ys[|users|] == u;
  }

  /** LoginUser, branch by branch: a malformed email fails with
      validateLoginUser's error before the lookup; a lookup failure is
      returned as it is; a missing or unverified user is NotFound; a password
      that does not match the stored hash is "invalid password" before any
      token is signed; a signing failure is returned; otherwise a Bearer token
      that expires `hours` after now. */
  lemma LoginOutcomes(s: AuthStores, req: LoginRequest, hours: int, check: HashCheck, io: LoginIo)
    ensures ValidateLoginUser(req).Some?
            ==> LoginStep(s, req, hours, check, io) == Fail(ValidateLoginUser(req).value)
    ensures ValidateLoginUser(req).None? && io.findFault.Some?
            ==> LoginStep(s, req, hours, check, io) == Fail(io.findFault.value)
    ensures ValidateLoginUser(req).None? && io.findFault.None? && FindVerified(s.users, req.email).None?
            ==> LoginStep(s, req, hours, check, io) == Fail(NewError(NotFound, "users not found"))
    ensures ValidateLoginUser(req).None? && io.findFault.None? && FindVerified(s.users, req.email).Some? ==>
      var u := s.users[FindVerified(s.users, req.email).value];
      && (!check(u.password, req.password) ==>
            LoginStep(s, req, hours, check, io) == Fail(NewError(Validation, "invalid password")))
      && (check(u.password, req.password) && io.signed.Fail? ==>
            LoginStep(s, req, hours, check, io) == Fail(io.signed.err))
      && (check(u.password, req.password) && io.signed.Ok? ==>
            LoginStep(s, req, hours, check, io)
              == Ok(LoginResponse(io.signed.value, "Bearer", io.now + hours * SecondsPerHour)))
  {
  }

  /** The account lifecycle: right after registering, the new account cannot
      log in (it is unverified, and no other account holds its email); once
      its code is verified, login with the right password issues a Bearer
      token. */
  lemma RegisterVerifyLogin(s: AuthStores, req: RegisterRequest, ttl: int, rio: RegisterIo,
                            hours: int, check: HashCheck, lio: LoginIo)
    requires AuthValid(s) && RegisterStep(s, req, ttl, rio).0.Ok?
    requires lio.findFault.None? && lio.signed.Ok?
    requires check(rio.hashed.value, req.password)
    ensures var s1 := RegisterStep(s, req, ttl, rio).1;
      var login := LoginRequest(req.email, req.password);
      && LoginStep(s1, login, hours, check, lio) == Fail(NewError(NotFound, "users not found"))
      && var (v, s2) := VerifyStep(s1, rio.code, VerifyIo(None, None));
         && v == Ok(VerifyCodeResponse(true))
         && LoginStep(s2, login, hours, check, lio)
            == Ok(LoginResponse(lio.signed.value, "Bearer", lio.now + hours * SecondsPerHour))
  {
    RegisterSucceeds(s, req, ttl, rio);
    var s1 := RegisterStep(s, req, ttl, rio).1;
    var u := User(ObjectId(s.nextId), req.fullName, req.email, rio.hashed.value, rio.now, false);
    AppendFreshEmail(s.users, u);
    var s2 := VerifyStep(s1, rio.code, VerifyIo(None, None)).1;
    assert s2.users == s.users + [u.(isVerified := true)];
    AppendFreshEmail(s.users, u.(isVerified := true));
  }

  // ----- the service object -----

  /** AuthServiceImpl: the repository and its configuration. */
  class AuthService {
    const repo: AuthRepo
    /** Config.Redis.TTL, in minutes. */
    const ttl: int
    /** Config.Common.JWTExpire, in hours. */
    const jwtExpireHours: int
    const check: HashCheck

    constructor (repo: AuthRepo, ttl: int, jwtExpireHours: int, check: HashCheck)
      ensures this.repo == repo && this.ttl == ttl && this.jwtExpireHours == jwtExpireHours && this.check == check
    {
      this.repo := repo;
      this.ttl := ttl;
      this.jwtExpireHours := jwtExpireHours;
      this.check := check;
    }

    method RegisterUser(req: RegisterRequest, io: RegisterIo) returns (r: Result<RegisterResponse>)
      requires repo.Valid()
      modifies repo
      ensures repo.Valid()
      ensures (r, repo.Snapshot()) == RegisterStep(old(repo.Snapshot()), req, ttl, io)
    {
      var err := ValidateRegisterUser(req);
      if err.Some? {
        return Fail(err.value);
      }
      if io.hashed.Fail? {
        return Fail(io.hashed.err);
      }
      var data := repo.CreateUser(User(ObjectId(0), req.fullName, req.email, io.hashed.value, 0, false),
                                  io.now, io.findFault, io.insertFault, io.idTyped);
      if data.Fail? {
        return Fail(data.err);
      }
      var codeVerification := io.code;
      err := repo.SetRegisterVerificationByEmail(req.email, codeVerification, ttl, io.setFault);
      if err.Some? {
        return Fail(err.value);
      }
      if io.mailFault.Some? {
        return Fail(io.mailFault.value);
      }
      return Ok(RegisterResponse(Hex(data.value.id), data.value.email, false));
    }

    method LoginUser(req: LoginRequest, io: LoginIo) returns (r: Result<LoginResponse>)
      ensures r == LoginStep(repo.Snapshot(), req, jwtExpireHours, check, io)
      ensures r.Ok? ==> r.value.tokenType == "Bearer"
    {
      var err := ValidateLoginUser(req);
      if err.Some? {
        return Fail(err.value);
      }
      var user := repo.FindByEmail(req.email, io.findFault);
      if user.Fail? {
        return Fail(user.err);
      }
      if !check(user.value.password, req.password) {
        return Fail(NewError(Validation, "invalid password"));
      }
      if io.signed.Fail? {
        return Fail(io.signed.err);
      }
      return Ok(LoginResponse(io.signed.value, "Bearer", io.now + jwtExpireHours * SecondsPerHour));
    }

    method VerifyCode(code: string, io: VerifyIo) returns (r: Result<VerifyCodeResponse>)
      requires repo.Valid()
      modifies repo
      ensures repo.Valid()
      ensures (r, repo.Snapshot()) == VerifyStep(old(repo.Snapshot()), code, io)
    {
      var got := repo.GetRegisterVerificationByCode(code, io.getFault);
      match got {
        case LookupError(e) =>
          return Fail(e);
        case Missing =>
          return Fail(NewError(NotFound, "code not found / expired"));
        case Found(email) =>
          var err := repo.UpdateVerifyStatusByEmail(email, io.updateFault);
          if err.Some? {
            return Fail(err.value);
          }
          return Ok(VerifyCodeResponse(true));
      }
    }
  }
}
