/** The auth service's HTTP handlers (auth/internal/v1/controller/auth.go).
    Responses go through the aborting envelope of auth/internal/v1/helper/http.go. */
module AuthController {
  import opened Errors
  import opened Text
  import opened Envelope
  import opened AuthRepository
  import opened AuthService

  const StatusOK: int := 200
  const StatusCreated: int := 201
  const StatusBadRequest: int := 400
  const StatusNotFound: int := 404
  const StatusInternalServerError: int := 500

  /** What a handler puts in the envelope's data: the bound request, or the
      service's response (nil when the service failed). */
  datatype AuthData =
    | RegisterEcho(register: RegisterRequest)
    | LoginEcho(login: LoginRequest)
    | Registered(registered: Option<RegisterResponse>)
    | LoggedIn(loggedIn: Option<LoginResponse>)

  /** Register, after the body has been bound. */
  function RegisterReply(req: RegisterRequest, r: Result<RegisterResponse>): (o: Reply<AuthData>)
    ensures WellFormed(o) && (o.aborted <==> r.Fail?)
    ensures r.Ok? ==> o.status == StatusCreated && o.body.data == Registered(Some(r.value))
    ensures r.Fail? && HasKind(r.err, Validation)
            ==> o.status == StatusBadRequest && o.body.messages == r.err.text && o.body.data == RegisterEcho(req)
    ensures r.Fail? && !HasKind(r.err, Validation)
            ==> o.status == StatusInternalServerError && o.body.messages == "Failed register user"
                && o.body.data == Registered(None)
    ensures r.Fail? ==> o.body.error == Some(r.err)
  {
    match r
    case Fail(err) =>
      if Contains(err.text, KindText(Validation)) then
        NewAbortingResponses(StatusBadRequest, err.text, RegisterEcho(req), Some(err), None)
      else
        NewAbortingResponses(StatusInternalServerError, "Failed register user", Registered(None), Some(err), None)
    case Ok(data) =>
      NewAbortingResponses(StatusCreated, "Success register user", Registered(Some(data)), None, None)
  }

  /** Login, after the body has been bound: Validation is tested before Not
      Found. */
  function LoginReply(req: LoginRequest, r: Result<LoginResponse>): (o: Reply<AuthData>)
    ensures WellFormed(o) && (o.aborted <==> r.Fail?)
    ensures r.Ok? ==> o.status == StatusOK && o.body.data == LoggedIn(Some(r.value))
    ensures r.Fail? && HasKind(r.err, Validation) ==> o.status == StatusBadRequest && o.body.data == LoginEcho(req)
    ensures r.Fail? && !HasKind(r.err, Validation) && HasKind(r.err, NotFound)
            ==> o.status == StatusNotFound && o.body.data == LoginEcho(req)
    ensures r.Fail? && !HasKind(r.err, Validation) && !HasKind(r.err, NotFound)
            ==> o.status == StatusInternalServerError && o.body.messages == "Failed login user"
                && o.body.data == LoggedIn(None)
    ensures r.Fail? ==> o.body.error == Some(r.err)
  {
    match r
    case Fail(err) =>
      if Contains(err.text, KindText(Validation)) then
        NewAbortingResponses(StatusBadRequest, err.text, LoginEcho(req), Some(err), None)
      else if Contains(err.text, KindText(NotFound)) then
        NewAbortingResponses(StatusNotFound, err.text, LoginEcho(req), Some(err), None)
      else
        NewAbortingResponses(StatusInternalServerError, "Failed login user", LoggedIn(None), Some(err), None)
    case Ok(data) =>
      NewAbortingResponses(StatusOK, "Success login user", LoggedIn(Some(data)), None, None)
  }

  /** The errors the login path builds land on their own status: every
      Validation error on 400, "users not found" on 404. */
  lemma LoginErrorStatuses(req: LoginRequest, msg: string)
    requires Initial(Validation) !in msg && Initial(NotFound) !in msg
    ensures LoginReply(req, Fail(NewError(Validation, msg))).status == StatusBadRequest
    ensures LoginReply(req, Fail(NewError(NotFound, msg))).status == StatusNotFound
    ensures LoginReply(req, Fail(NewError(Type, msg))).status == StatusInternalServerError
  {
    NewErrorKind(NotFound, msg, Validation);
    NewErrorKind(Type, msg, Validation);
    NewErrorKind(Type, msg, NotFound);
  }

  /** Logging in to an account that is registered but not yet verified is a
      404. */
  lemma UnverifiedLoginIs404(s: AuthStores, req: LoginRequest, hours: int, check: HashCheck, io: LoginIo)
    requires ValidateLoginUser(req).None? && io.findFault.None? && FindVerified(s.users, req.email).None?
    ensures LoginReply(req, LoginStep(s, req, hours, check, io)).status == StatusNotFound
  {
    LoginErrorStatuses(req, "users not found");
  }

  /** A verified user who gives the wrong password gets a 400, not a 404. */
  lemma WrongPasswordIs400(s: AuthStores, req: LoginRequest, hours: int, check: HashCheck, io: LoginIo)
    requires ValidateLoginUser(req).None? && io.findFault.None? && FindVerified(s.users, req.email).Some?
    requires !check(s.users[FindVerified(s.users, req.email).value].password, req.password)
    ensures LoginReply(req, LoginStep(s, req, hours, check, io)).status == StatusBadRequest
  {
    LoginOutcomes(s, req, hours, check, io);
    LoginErrorStatuses(req, "invalid password");
  }

  /** AuthControllerImpl. */
  class AuthController {
    const svc: AuthService

    constructor (svc: AuthService)
      ensures this.svc == svc
    {
      this.svc := svc;
    }

    /** `bindErr` is the failure of BindJSON; `req` is what it bound. */
    method Register(req: RegisterRequest, bindErr: Option<Error>, io: RegisterIo) returns (o: Reply<AuthData>)
      requires svc.repo.Valid()
      modifies svc.repo
      ensures svc.repo.Valid()
      ensures bindErr.Some? ==>
        o == NewAbortingResponses(StatusBadRequest, "Invalid request", RegisterEcho(req), bindErr, None)
        && svc.repo.Snapshot() == old(svc.repo.Snapshot())
      ensures bindErr.None? ==>
        var (r, t) := RegisterStep(old(svc.repo.Snapshot()), req, svc.ttl, io);
        o == RegisterReply(req, r) && svc.repo.Snapshot() == t
    {
      if bindErr.Some? {
        return NewAbortingResponses(StatusBadRequest, "Invalid request", RegisterEcho(req), bindErr, None);
      }
      var data := svc.RegisterUser(req, io);
      o := RegisterReply(req, data);
    }

    method Login(req: LoginRequest, bindErr: Option<Error>, io: LoginIo) returns (o: Reply<AuthData>)
      ensures bindErr.Some? ==>
        o == NewAbortingResponses(StatusBadRequest, "Invalid request", LoginEcho(req), bindErr, None)
      ensures bindErr.None? ==>
        o == LoginReply(req, LoginStep(svc.repo.Snapshot(), req, svc.jwtExpireHours, svc.check, io))
    {
      if bindErr.Some? {
        return NewAbortingResponses(StatusBadRequest, "Invalid request", LoginEcho(req), bindErr, None);
      }
      var data := svc.LoginUser(req, io);
      o := LoginReply(req, data);
    }
  }
}
