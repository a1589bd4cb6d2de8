/** The user service's HTTP handlers (user/internal/v1/controller/user.go).
    Each reads the payload the JWT middleware stored, calls the service, and
    answers through the envelope of user/internal/v1/helper/http.go. */
module UserController {
  import opened Errors
  import opened Text
  import opened Envelope
  import opened Documents
  import opened Jwt
  import ShortController
  import opened UserService

  const StatusOK: int := 200
  const StatusCreated: int := 201
  const StatusBadRequest: int := 400
  const StatusNotFound: int := 404
  const StatusInternalServerError: int := 500

  /** What a handler puts in the envelope's data; every error answer carries nil. */
  datatype UserData =
    | NoData
    | ProfileData(profile: UserProfile)
    | ShortsData(shorts: Option<seq<UserShorts>>)
    | GeneratedData(generated: ShortUserResponse)
    | AvatarData(avatar: UploadAvatarResponse)

  /** An error answer: the error's text as the message, nil data. */
  function ErrorReply(status: int, err: Error): (o: Reply<UserData>)
    requires status >= 400
    ensures WellFormed(o) && o.status == status
    ensures o.body.messages == err.text && o.body.data == NoData && o.body.error == Some(err)
  {
    NewResponses(status, err.text, NoData, Some(err), None)
  }

  /** Profile: a payload that cannot be extracted is a 500; a Not Found
      lookup a 404, any other failure a 500. */
  function ProfileReply(ext: Result<DecodePayloadData>, detail: Result<UserProfile>): (o: Reply<UserData>)
    ensures WellFormed(o)
    ensures o.status in {StatusOK, StatusNotFound, StatusInternalServerError}
    ensures o.status == StatusOK <==> ext.Ok? && detail.Ok?
    ensures o.status == StatusNotFound <==> ext.Ok? && detail.Fail? && HasKind(detail.err, NotFound)
    ensures o.status == StatusOK ==> o.body.data == ProfileData(detail.value) && o.body.messages == "Success get Profiles"
    ensures ext.Fail? ==> o == ErrorReply(StatusInternalServerError, ext.err)
    ensures ext.Ok? && detail.Fail? ==> o.body.error == Some(detail.err) && o.body.messages == detail.err.text
  {
    if ext.Fail? then ErrorReply(StatusInternalServerError, ext.err)
    else match detail
      case Fail(err) =>
        if Contains(err.text, KindText(NotFound)) then ErrorReply(StatusNotFound, err)
        else ErrorReply(StatusInternalServerError, err)
      case Ok(p) => NewResponses(StatusOK, "Success get Profiles", ProfileData(p), None, None)
  }

  /** Dashboard: every failure is a 500; the list (nil when empty) a 200. */
  function DashboardReply(ext: Result<DecodePayloadData>, shorts: Result<Option<seq<UserShorts>>>): (o: Reply<UserData>)
    ensures WellFormed(o)
    ensures o.status == StatusOK <==> ext.Ok? && shorts.Ok?
    ensures o.status != StatusOK ==> o.status == StatusInternalServerError
    ensures o.status == StatusOK ==> o.body.data == ShortsData(shorts.value) && o.body.messages == "Success get Dashboard"
    ensures ext.Fail? ==> o == ErrorReply(StatusInternalServerError, ext.err)
    ensures ext.Ok? && shorts.Fail? ==> o == ErrorReply(StatusInternalServerError, shorts.err)
  {
    if ext.Fail? then ErrorReply(StatusInternalServerError, ext.err)
    else match shorts
      case Fail(err) => ErrorReply(StatusInternalServerError, err)
      case Ok(list) => NewResponses(StatusOK, "Success get Dashboard", ShortsData(list), None, None)
  }

  /** GenerateShort: a body that does not parse is a 400, a service failure a
      500, a generated link a 201. */
  function GenerateReply(ext: Result<DecodePayloadData>, bodyErr: Option<Error>, gen: Result<ShortUserResponse>): (o: Reply<UserData>)
    ensures WellFormed(o)
    ensures o.status in {StatusCreated, StatusBadRequest, StatusInternalServerError}
    ensures o.status == StatusCreated <==> ext.Ok? && bodyErr.None? && gen.Ok?
    ensures o.status == StatusBadRequest <==> ext.Ok? && bodyErr.Some?
    ensures o.status == StatusCreated ==> o.body.data == GeneratedData(gen.value) && o.body.messages == "Success generate Short URL's"
    ensures ext.Ok? && bodyErr.Some? ==> o == ErrorReply(StatusBadRequest, bodyErr.value)
    ensures ext.Ok? && bodyErr.None? && gen.Fail? ==> o == ErrorReply(StatusInternalServerError, gen.err)
  {
    if ext.Fail? then ErrorReply(StatusInternalServerError, ext.err)
    else if bodyErr.Some? then ErrorReply(StatusBadRequest, bodyErr.value)
    else match gen
      case Fail(err) => ErrorReply(StatusInternalServerError, err)
      case Ok(resp) => NewResponses(StatusCreated, "Success generate Short URL's", GeneratedData(resp), None, None)
  }

  /** EditProfile: an unparsable body or a Validation error is a 400, any
      other failure a 500, success a 200 with nil data. */
  function EditReply(ext: Result<DecodePayloadData>, bodyErr: Option<Error>, err: Option<Error>): (o: Reply<UserData>)
    ensures WellFormed(o) && o.body.data == NoData
    ensures o.status in {StatusOK, StatusBadRequest, StatusInternalServerError}
    ensures o.status == StatusOK <==> ext.Ok? && bodyErr.None? && err.None?
    ensures o.status == StatusBadRequest
            <==> ext.Ok? && (bodyErr.Some? || (err.Some? && HasKind(err.value, Validation)))
    ensures o.status == StatusOK ==> o.body.messages == "Success update profile"
    ensures ext.Ok? && bodyErr.None? && err.Some? ==> o.body.error == err && o.body.messages == err.value.text
  {
    if ext.Fail? then ErrorReply(StatusInternalServerError, ext.err)
    else if bodyErr.Some? then ErrorReply(StatusBadRequest, bodyErr.value)
    else match err
      case Some(e) =>
        if Contains(e.text, KindText(Validation)) then ErrorReply(StatusBadRequest, e)
        else ErrorReply(StatusInternalServerError, e)
      case None => NewResponses(StatusOK, "Success update profile", NoData, None, None)
  }

  /** UploadAvatar: every failure, the service's Validation error included,
      is a 500. */
  function AvatarReply(ext: Result<DecodePayloadData>, resp: Result<UploadAvatarResponse>): (o: Reply<UserData>)
    ensures WellFormed(o)
    ensures o.status == StatusOK <==> ext.Ok? && resp.Ok?
    ensures o.status != StatusOK ==> o.status == StatusInternalServerError
    ensures o.status == StatusOK ==> o.body.data == AvatarData(resp.value) && o.body.messages == "Success upload avatar users"
    ensures ext.Ok? && resp.Fail? ==> o == ErrorReply(StatusInternalServerError, resp.err)
  {
    if ext.Fail? then ErrorReply(StatusInternalServerError, ext.err)
    else match resp
      case Fail(err) => ErrorReply(StatusInternalServerError, err)
      case Ok(r) => NewResponses(StatusOK, "Success upload avatar users", AvatarData(r), None, None)
  }

  // ----- properties -----

  /** A profile request for an email no user has is a 404. */
  lemma ProfileMissingUserIs404(p: DecodePayloadData, users: seq<UserProfile>)
    requires forall i :: 0 <= i < |users| ==> users[i].email != p.email
    ensures ProfileReply(Ok(p), FindUser(users, p.email, None)).status == StatusNotFound
  {
  }

  /** A name the service refuses is a 400 on the profile edit. */
  lemma ShortNameIs400(p: DecodePayloadData, s: UserState, req: EditProfileRequest, writeFault: Option<Error>)
    requires Utf8Len(req.fullName) < 3
    ensures EditReply(Ok(p), None, ProfileStep(s, p.userID, req, writeFault).0).status == StatusBadRequest
  {
    ProfileOutcome(s, p.userID, req, writeFault);
  }

  /** A file of the wrong type is answered 500 although the service reports
      it as a Validation error. */
  lemma WrongImageTypeIs500(p: DecodePayloadData, s: UserState, store: ObjectStore, io: UploadIo)
    requires io.form.Ok? && io.openFault.None? && !AcceptedImage(io.form.value.contentType)
    ensures var o := AvatarReply(Ok(p), AvatarStep(s, p.userID, store, io).0);
      o.status == StatusInternalServerError && HasKind(o.body.error.value, Validation)
  {
    AvatarTypeChecked(s, p.userID, store, io);
  }

  class UserController {
    const svc: UserService

    constructor(svc0: UserService)
      ensures svc == svc0
    {
      svc := svc0;
    }

    method Profile(local: Local, lookupFault: Option<Error>) returns (o: Reply<UserData>)
      ensures Extract(local).Fail? ==> o == ErrorReply(StatusInternalServerError, Extract(local).err)
      ensures Extract(local).Ok? ==> o == ProfileReply(Extract(local), FindUser(svc.backend.users, Extract(local).value.email, lookupFault))
    {
      var ext := Extract(local);
      if ext.Fail? {
        return ErrorReply(StatusInternalServerError, ext.err);
      }
      var detail := svc.GetUserDetail(ext.value.email, lookupFault);
      if detail.Fail? {
        if Contains(detail.err.text, KindText(NotFound)) {
          return ErrorReply(StatusNotFound, detail.err);
        }
        return ErrorReply(StatusInternalServerError, detail.err);
      }
      return NewResponses(StatusOK, "Success get Profiles", ProfileData(detail.value), None, None);
    }

    /** Dashboard, with `rpc` the shortener's answer for the payload's user id. */
    method Dashboard(local: Local, rpc: Result<seq<ShortController.PbShortener>>) returns (o: Reply<UserData>)
      ensures o == DashboardReply(Extract(local), UserShortsOf(rpc))
    {
      var ext := Extract(local);
      if ext.Fail? {
        return ErrorReply(StatusInternalServerError, ext.err);
      }
      var detail := svc.GetUserShorts(rpc);
      if detail.Fail? {
        return ErrorReply(StatusInternalServerError, detail.err);
      }
      return NewResponses(StatusOK, "Success get Dashboard", ShortsData(detail.value), None, None);
    }

    method GenerateShort(local: Local, bodyErr: Option<Error>, req: ShortUserRequest, code: string,
                         publishFault: Option<Error>) returns (o: Reply<UserData>)
      modifies svc.backend
      ensures Extract(local).Fail? ==> o == ErrorReply(StatusInternalServerError, Extract(local).err)
      ensures Extract(local).Ok? && bodyErr.Some? ==> o == ErrorReply(StatusBadRequest, bodyErr.value)
      ensures Extract(local).Fail? || bodyErr.Some? ==> svc.backend.Snapshot() == old(svc.backend.Snapshot())
      ensures Extract(local).Ok? && bodyErr.None? ==>
        var (r, t) := GenerateStep(old(svc.backend.Snapshot()), Extract(local).value.userID, req, svc.shortenerBase, code, publishFault);
        o == GenerateReply(Extract(local), bodyErr, r) && svc.backend.Snapshot() == t
    {
      var ext := Extract(local);
      if ext.Fail? {
        return ErrorReply(StatusInternalServerError, ext.err);
      }
      if bodyErr.Some? {
        return ErrorReply(StatusBadRequest, bodyErr.value);
      }
      var newShort := svc.GenerateUserShorts(ext.value.userID, req, code, publishFault);
      if newShort.Fail? {
        return ErrorReply(StatusInternalServerError, newShort.err);
      }
      return NewResponses(StatusCreated, "Success generate Short URL's", GeneratedData(newShort.value), None, None);
    }

    method EditProfile(local: Local, bodyErr: Option<Error>, req: EditProfileRequest, writeFault: Option<Error>)
      returns (o: Reply<UserData>)
      modifies svc.backend
      ensures Extract(local).Fail? ==> o == ErrorReply(StatusInternalServerError, Extract(local).err)
      ensures Extract(local).Ok? && bodyErr.Some? ==> o == ErrorReply(StatusBadRequest, bodyErr.value)
      ensures Extract(local).Fail? || bodyErr.Some? ==> svc.backend.Snapshot() == old(svc.backend.Snapshot())
      ensures Extract(local).Ok? && bodyErr.None? ==>
        var (e, t) := ProfileStep(old(svc.backend.Snapshot()), Extract(local).value.userID, req, writeFault);
        o == EditReply(Extract(local), bodyErr, e) && svc.backend.Snapshot() == t
    {
      var ext := Extract(local);
      if ext.Fail? {
        return ErrorReply(StatusInternalServerError, ext.err);
      }
      if bodyErr.Some? {
        return ErrorReply(StatusBadRequest, bodyErr.value);
      }
      var err := svc.UpdateUserProfile(ext.value.userID, req, writeFault);
      if err.Some? {
        if Contains(err.value.text, KindText(Validation)) {
          return ErrorReply(StatusBadRequest, err.value);
        }
        return ErrorReply(StatusInternalServerError, err.value);
      }
      return NewResponses(StatusOK, "Success update profile", NoData, None, None);
    }

    method UploadAvatar(local: Local, io: UploadIo) returns (o: Reply<UserData>)
      modifies svc.backend
      ensures Extract(local).Fail? ==> o == ErrorReply(StatusInternalServerError, Extract(local).err)
      ensures Extract(local).Fail? ==> svc.backend.Snapshot() == old(svc.backend.Snapshot())
      ensures Extract(local).Ok? ==>
        var (r, t) := AvatarStep(old(svc.backend.Snapshot()), Extract(local).value.userID, svc.store, io);
        o == AvatarReply(Extract(local), r) && svc.backend.Snapshot() == t
    {
      var ext := Extract(local);
      if ext.Fail? {
        return ErrorReply(StatusInternalServerError, ext.err);
      }
      var resp := svc.UploadUserAvatar(ext.value.userID, io);
      if resp.Fail? {
        return ErrorReply(StatusInternalServerError, resp.err);
      }
      return NewResponses(StatusOK, "Success upload avatar users", AvatarData(resp.value), None, None);
    }
  }
}
