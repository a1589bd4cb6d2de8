/** The user service (user/internal/v1/service/user.go) over its backend:
    the users collection, the queues it publishes to, and the profile writes
    it asks for. The shortener is reached by gRPC for the dashboard and by
    the create-shortener queue for new links. */
module UserService {
  import opened Errors
  import opened Text
  import opened Documents
  import opened ShortRepository
  import opened ShortController

  /** model.User of the user service. */
  datatype UserProfile = UserProfile(id: ObjectId, fullName: string, email: string)

  /** model.UserShorts: one row of the dashboard. */
  datatype UserShorts = UserShorts(id: string, fullURL: string, shortURL: string, visited: int)

  datatype ShortUserRequest = ShortUserRequest(fullURL: string)
  datatype ShortUserResponse = ShortUserResponse(shortURL: string, httpMethod: string)
  datatype EditProfileRequest = EditProfileRequest(fullName: string)
  datatype UploadAvatarResponse = UploadAvatarResponse(fileURL: string)

  /** model.GenerateShortUserMessage, the body GenerateUserShorts queues. */
  datatype GenerateShortUserMessage = GenerateShortUserMessage(fullURL: string, userID: string, shortURL: string)

  /** model.UploadAvatarRequest, the body UploadUserAvatar queues. */
  datatype UploadAvatarRequest = UploadAvatarRequest(fileName: string, contentType: string, avatar: seq<bv8>)

  /** A message on one of the four queues the service publishes to. */
  datatype Publication =
    | CreateShortener(body: Body)
    | UpdateShortener(shortID: string, req: ShortUserRequest)
    | DeleteShortener(shortID: string)
    | UploadAvatar(upload: UploadAvatarRequest)

  /** A write to a user document. */
  datatype ProfileWrite = NameWrite(userID: string, fullName: string) | AvatarWrite(userID: string, url: string)

  /** The backend as the service sees it. */
  datatype UserState = UserState(users: seq<UserProfile>, published: seq<Publication>, writes: seq<ProfileWrite>)

  /** `json.Marshal` of the create message: the shortener's CreateShortRequest keys. */
  function EncodeGenerate(msg: GenerateShortUserMessage): Body {
    Json(map["user_id" := msg.userID, "full_url" := msg.fullURL, "short_url" := msg.shortURL])
  }

  /** What the shortener's create consumer decodes is what the user service sent. */
  lemma GenerateMessageRoundTrip(msg: GenerateShortUserMessage)
    ensures DecodeCreate(EncodeGenerate(msg)) == (CreateShortRequest(msg.userID, msg.fullURL, msg.shortURL), true)
  {
    var f := EncodeGenerate(msg).fields;
    assert Field(f, "user_id") == msg.userID;
    assert Field(f, "full_url") == msg.fullURL;
    assert Field(f, "short_url") == msg.shortURL;
  }

  /** `UserRepository.FindByEmail`: the first user with that email, NotFound
      "users not found" when there is none, the store's failure otherwise. */
  function FindUser(users: seq<UserProfile>, email: string, fault: Option<Error>): (r: Result<UserProfile>)
    ensures fault.Some? ==> r == Fail(fault.value)
    ensures fault.None? ==> (r.Ok? <==> exists i :: 0 <= i < |users| && users[i].email == email)
    ensures r.Ok? ==> r.value in users && r.value.email == email
    ensures fault.None? && r.Fail? ==> r.err == NewError(NotFound, "users not found")
  {
    if fault.Some? then Fail(fault.value)
    else match FirstWhere(users, (u: UserProfile) => u.email == email)
      case None => Fail(NewError(NotFound, "users not found"))
      case Some(i) => Ok(users[i])
  }

  /** One dashboard row from one gRPC shortener. */
  function ToUserShorts(q: PbShortener): (u: UserShorts)
    ensures u.id == q.id && u.fullURL == q.fullUrl && u.shortURL == q.shortUrl && u.visited == q.visited
  {
    UserShorts(q.id, q.fullUrl, q.shortUrl, q.visited)
  }

  /** The dashboard rows for an RPC answer: its error, nil for an empty
      list, or one row per shortener in the RPC's order. */
  function UserShortsOf(rpc: Result<seq<PbShortener>>): (r: Result<Option<seq<UserShorts>>>)
    ensures rpc.Fail? ==> r == Fail(rpc.err)
    ensures rpc.Ok? ==> r.Ok? && (r.value.None? <==> |rpc.value| == 0)
    ensures rpc.Ok? && r.value.Some? ==> |r.value.value| == |rpc.value|
    ensures rpc.Ok? && r.value.Some? ==> forall i :: 0 <= i < |rpc.value| ==> r.value.value[i] == ToUserShorts(rpc.value[i])
  {
    match rpc
    case Fail(e) => Fail(e)
    case Ok(data) =>
      if |data| == 0 then Ok(None)
      else Ok(Some(seq(|data|, i requires 0 <= i < |data| => ToUserShorts(data[i]))))
  }

  /** The checks of UpdateUserProfile: a name is required, and it must be
      at least three bytes long. */
  function ValidateFullName(name: string): (r: Option<Error>)
    ensures r.None? <==> Utf8Len(name) >= 3
    ensures name == [] ==> r == Some(NewError(Validation, "Full Name Required"))
    ensures name != [] && Utf8Len(name) < 3 ==> r == Some(NewError(Validation, "Full Name must more than 3"))
    ensures r.Some? ==> HasKind(r.value, Validation)
  {
    if name == "" then Some(NewError(Validation, "Full Name Required"))
    else if Utf8Len(name) < 3 then Some(NewError(Validation, "Full Name must more than 3"))
    else None
  }

  /** The two image types UploadUserAvatar accepts. */
  predicate AcceptedImage(contentType: string) {
    contentType == "image/jpeg" || contentType == "image/png"
  }

  const InvalidFileMessage: string := "invalid file, only accept file with extension image/jpeg or image/png"

  /** The uploaded form file: its name and the first Content-Type header value. */
  datatype FormFile = FormFile(filename: string, contentType: string)

  /** Outcomes of UploadUserAvatar's calls, in call order: reading the form
      file, opening it, copying it, the publish and the URL write. */
  datatype UploadIo = UploadIo(form: Result<FormFile>, openFault: Option<Error>, copied: Result<seq<bv8>>,
                               publishFault: Option<Error>, writeFault: Option<Error>)

  /** Where the object store serves files from, and how `url.URL.String`
      escapes a path. */
  datatype ObjectStore = ObjectStore(endpoint: string, bucket: string, escapePath: string -> string)

  /** The stored object's name: the original name, a dash, the user id. */
  function AvatarName(filename: string, userID: string): string {
    filename + "-" + userID
  }

  /** `url.URL{Scheme: "http", Path: endpoint/bucket/name}.String()`: with no
      host, the scheme, two slashes and the escaped path. */
  function AvatarUrl(store: ObjectStore, fileName: string): string {
    "http://" + store.escapePath(store.endpoint + "/" + store.bucket + "/" + fileName)
  }

  /** `UpdateProfileByID`: the first user whose id is `userID` in hex gets the
      new name; with no such user nothing changes and no error is reported.
      Ids and emails never change. */
  function Rename(users: seq<UserProfile>, userID: string, name: string): (r: seq<UserProfile>)
    ensures |r| == |users|
    ensures forall j :: 0 <= j < |users| ==> r[j].id == users[j].id && r[j].email == users[j].email
    ensures (forall j :: 0 <= j < |users| ==> Hex(users[j].id) != userID) ==> r == users
  {
    if users == [] then []
    else if Hex(users[0].id) == userID then [users[0].(fullName := name)] + users[1..]
    else [users[0]] + Rename(users[1..], userID, name)
  }

  /** Exactly the first user with that id is renamed. */
  lemma {:induction false} RenameFirst(users: seq<UserProfile>, userID: string, name: string, i: nat)
    requires i < |users| && Hex(users[i].id) == userID
    requires forall j :: 0 <= j < i ==> Hex(users[j].id) != userID
    ensures Rename(users, userID, name) == users[i := users[i].(fullName := name)]
    decreases i
  {
    var renamed := users[i].(fullName := name);
    if i > 0 {
      var tail := users[1..];
      assert Hex(users[0].id) != userID;
      assert Rename(users, userID, name) == [users[0]] + Rename(tail, userID, name);
      assert tail[i - 1] == users[i];
      assert forall j :: 0 <= j < i - 1 ==> tail[j] == users[j + 1];
      RenameFirst(tail, userID, name, i - 1);
      assert [users[0]] + tail[i - 1 := renamed] == users[i := renamed];
    } else {
      assert Rename(users, userID, name) == [renamed] + users[1..];
      assert [renamed] + users[1..] == users[0 := renamed];
    }
  }

  // ----- the transitions -----

  /** GenerateUserShorts: queue the message, then answer with the link. */
  function GenerateStep(s: UserState, userID: string, req: ShortUserRequest, base: string,
                        code: string, publishFault: Option<Error>): (Result<ShortUserResponse>, UserState)
  {
    var msg := GenerateShortUserMessage(req.fullURL, userID, code);
    if publishFault.Some? then (Fail(publishFault.value), s)
    else (Ok(ShortUserResponse(base + "/" + code, "GET")), s.(published := s.published + [CreateShortener(EncodeGenerate(msg))]))
  }

  /** UpdateUserProfile: validate, then write the name. */
  function ProfileStep(s: UserState, userID: string, req: EditProfileRequest, writeFault: Option<Error>): (Option<Error>, UserState)
  {
    if ValidateFullName(req.fullName).Some? then (ValidateFullName(req.fullName), s)
    else if writeFault.Some? then (writeFault, s)
    else (None, s.(users := Rename(s.users, userID, req.fullName), writes := s.writes + [NameWrite(userID, req.fullName)]))
  }

  /** UploadUserAvatar: read and open the file, check its type, copy it,
      queue it for the upload service, then record its URL. */
  function AvatarStep(s: UserState, userID: string, store: ObjectStore, io: UploadIo): (Result<UploadAvatarResponse>, UserState)
  {
    if io.form.Fail? then (Fail(io.form.err), s)
    else if io.openFault.Some? then (Fail(io.openFault.value), s)
    else
      var file := io.form.value;
      var fileName := AvatarName(file.filename, userID);
      if !AcceptedImage(file.contentType) then (Fail(NewError(Validation, InvalidFileMessage)), s)
      else if io.copied.Fail? then (Fail(io.copied.err), s)
      else if io.publishFault.Some? then (Fail(io.publishFault.value), s)
      else
        var s1 := s.(published := s.published + [UploadAvatar(UploadAvatarRequest(fileName, file.contentType, io.copied.value))]);
        var url := AvatarUrl(store, fileName);
        if io.writeFault.Some? then (Fail(io.writeFault.value), s1)
        else (Ok(UploadAvatarResponse(url)), s1.(writes := s1.writes + [AvatarWrite(userID, url)]))
  }

  /** UpdateUserShorts and DeleteUserShorts: queue the request, answer with
      an empty response. */
  function RelayStep(s: UserState, p: Publication, publishFault: Option<Error>): (Result<ShortUserResponse>, UserState)
  {
    if publishFault.Some? then (Fail(publishFault.value), s)
    else (Ok(ShortUserResponse("", "")), s.(published := s.published + [p]))
  }

  // ----- properties -----

  /** A generated link: it fails exactly when the publish does, and then
      queues nothing; otherwise exactly one create message is queued, the
      shortener decodes it to the caller's id, the requested URL and the
      code, and the answer is the base URL, a slash and that code, to GET. */
  lemma GenerateOutcome(s: UserState, userID: string, req: ShortUserRequest, base: string,
                        code: string, publishFault: Option<Error>)
    ensures var (r, t) := GenerateStep(s, userID, req, base, code, publishFault);
      && (r.Fail? <==> publishFault.Some?)
      && (r.Fail? ==> t == s)
      && (r.Ok? ==>
          && r.value == ShortUserResponse(base + "/" + code, "GET")
          && t.users == s.users && t.writes == s.writes
          && |t.published| == |s.published| + 1 && t.published[..|s.published|] == s.published
          && t.published[|s.published|].CreateShortener?
          && DecodeCreate(t.published[|s.published|].body) == (CreateShortRequest(userID, req.fullURL, code), true))
  {
    GenerateMessageRoundTrip(GenerateShortUserMessage(req.fullURL, userID, code));
    var t := GenerateStep(s, userID, req, base, code, publishFault).1;
    if publishFault.None? {
      assert t.published[..|s.published|] == s.published;
    }
  }

  /** A name that fails validation is refused before the repository is
      reached; a valid one is written exactly when the write succeeds. */
  lemma ProfileOutcome(s: UserState, userID: string, req: EditProfileRequest, writeFault: Option<Error>)
    ensures var (e, t) := ProfileStep(s, userID, req, writeFault);
      && (Utf8Len(req.fullName) < 3 ==> e.Some? && HasKind(e.value, Validation) && t == s)
      && (Utf8Len(req.fullName) >= 3 ==> e == writeFault)
      && (e.Some? ==> t == s)
      && (e.None? ==> t == s.(users := Rename(s.users, userID, req.fullName),
                              writes := s.writes + [NameWrite(userID, req.fullName)]))
  {
  }

  /** After a successful edit, reading the edited user's profile by email
      (GetUserDetail) returns the new name, the user being the first with
      that id and the first with that email. */
  lemma EditThenDetail(s: UserState, userID: string, req: EditProfileRequest, i: nat)
    requires Utf8Len(req.fullName) >= 3
    requires i < |s.users| && Hex(s.users[i].id) == userID
    requires forall j :: 0 <= j < i ==> Hex(s.users[j].id) != userID
    requires forall j :: 0 <= j < i ==> s.users[j].email != s.users[i].email
    ensures FindUser(ProfileStep(s, userID, req, None).1.users, s.users[i].email, None)
            == Ok(s.users[i].(fullName := req.fullName))
  {
    RenameFirst(s.users, userID, req.fullName, i);
    var users := ProfileStep(s, userID, req, None).1.users;
    assert users == s.users[i := s.users[i].(fullName := req.fullName)];
  }

  /** An upload of any type but JPEG or PNG is refused with a Validation
      error once the file has been read, and nothing is queued or written. */
  lemma AvatarTypeChecked(s: UserState, userID: string, store: ObjectStore, io: UploadIo)
    requires io.form.Ok? && io.openFault.None? && !AcceptedImage(io.form.value.contentType)
    ensures AvatarStep(s, userID, store, io) == (Fail(NewError(Validation, InvalidFileMessage)), s)
    ensures HasKind(NewError(Validation, InvalidFileMessage), Validation)
  {
  }

  /** A successful upload queues the file under its name, the original name
      and the user id joined by a dash, and the URL it answers with is the
      one it wrote to the user. */
  lemma AvatarOutcome(s: UserState, userID: string, store: ObjectStore, io: UploadIo)
    requires AvatarStep(s, userID, store, io).0.Ok?
    ensures var (r, t) := AvatarStep(s, userID, store, io);
      var fileName := AvatarName(io.form.value.filename, userID);
      && AcceptedImage(io.form.value.contentType)
      && t.users == s.users
      && t.published == s.published + [UploadAvatar(UploadAvatarRequest(fileName, io.form.value.contentType, io.copied.value))]
      && t.writes == s.writes + [AvatarWrite(userID, r.value.fileURL)]
      && r.value.fileURL == AvatarUrl(store, fileName)
  {
  }

  /** A failed URL write after a successful publish still leaves the file
      queued for upload: the user's avatar URL is not recorded. */
  lemma AvatarWriteFailureKeepsUpload(s: UserState, userID: string, store: ObjectStore, io: UploadIo)
    requires io.form.Ok? && io.openFault.None? && AcceptedImage(io.form.value.contentType)
    requires io.copied.Ok? && io.publishFault.None? && io.writeFault.Some?
    ensures var (r, t) := AvatarStep(s, userID, store, io);
      && r == Fail(io.writeFault.value)
      && |t.published| == |s.published| + 1 && t.published[|s.published|].UploadAvatar?
      && t.writes == s.writes
  {
  }

  /** The relays change nothing but the queue, and only when they succeed. */
  lemma RelayOutcome(s: UserState, p: Publication, publishFault: Option<Error>)
    ensures var (r, t) := RelayStep(s, p, publishFault);
      && (r.Ok? <==> publishFault.None?)
      && (r.Ok? ==> r.value == ShortUserResponse("", "") && t == s.(published := s.published + [p]))
      && (r.Fail? ==> r.err == publishFault.value && t == s)
  {
  }

  /** The users collection, the queues and the profile writes. */
  class UserBackend {
    var users: seq<UserProfile>
    var published: seq<Publication>
    var writes: seq<ProfileWrite>

    function Snapshot(): UserState
      reads this
    {
      UserState(users, published, writes)
    }

    constructor(users0: seq<UserProfile>)
      ensures Snapshot() == UserState(users0, [], [])
    {
      users, published, writes := users0, [], [];
    }

    /** `FindByEmail`. */
    method FindByEmail(email: string, fault: Option<Error>) returns (r: Result<UserProfile>)
      ensures r == FindUser(users, email, fault)
    {
      if fault.Some? {
        return Fail(fault.value);
      }
      var i := FirstWhere(users, (u: UserProfile) => u.email == email);
      if i.None? {
        return Fail(NewError(NotFound, "users not found"));
      }
      return Ok(users[i.value]);
    }

    /** A publish to one of the queues: the message is appended unless the
        broker fails. */
    method Publish(p: Publication, fault: Option<Error>) returns (err: Option<Error>)
      modifies this
      ensures err == fault
      ensures Snapshot() == if fault.Some? then old(Snapshot()) else old(Snapshot()).(published := old(published) + [p])
    {
      if fault.Some? {
        return fault;
      }
      published := published + [p];
      return None;
    }

    /** `PublishCreateUserShortener`: the message as JSON on the create queue. */
    method PublishCreateUserShortener(msg: GenerateShortUserMessage, fault: Option<Error>) returns (err: Option<Error>)
      modifies this
      ensures err == fault
      ensures Snapshot() == if fault.Some? then old(Snapshot())
                            else old(Snapshot()).(published := old(published) + [CreateShortener(EncodeGenerate(msg))])
    {
      err := Publish(CreateShortener(EncodeGenerate(msg)), fault);
    }

    /** `UpdateProfileByID`: the name is set on the user with that id and the
        write recorded, unless the database fails. */
    method UpdateProfileByID(userID: string, name: string, fault: Option<Error>) returns (err: Option<Error>)
      modifies this
      ensures err == fault
      ensures Snapshot() == if fault.Some? then old(Snapshot())
                            else old(Snapshot()).(users := Rename(old(users), userID, name),
                                                  writes := old(writes) + [NameWrite(userID, name)])
    {
      if fault.Some? {
        return fault;
      }
      users := Rename(users, userID, name);
      writes := writes + [NameWrite(userID, name)];
      return None;
    }

    /** A write to a user document, recorded unless the database fails. */
    method Write(w: ProfileWrite, fault: Option<Error>) returns (err: Option<Error>)
      modifies this
      ensures err == fault
      ensures Snapshot() == if fault.Some? then old(Snapshot()) else old(Snapshot()).(writes := old(writes) + [w])
    {
      if fault.Some? {
        return fault;
      }
      writes := writes + [w];
      return None;
    }
  }

  class UserService {
    const backend: UserBackend
    /** Config.HttpService.ShortenerBaseAPIURL. */
    const shortenerBase: string
    const store: ObjectStore

    constructor(backend0: UserBackend, base: string, store0: ObjectStore)
      ensures backend == backend0 && shortenerBase == base && store == store0
    {
      backend, shortenerBase, store := backend0, base, store0;
    }

    /** `GetUserDetail`: the repository lookup, unchanged. */
    method GetUserDetail(email: string, fault: Option<Error>) returns (r: Result<UserProfile>)
      ensures r == FindUser(backend.users, email, fault)
    {
      r := backend.FindByEmail(email, fault);
    }

    /** `GetUserShorts`: the RPC's error unchanged; no list at all for an
        empty answer; otherwise one row per shortener, in the RPC's order. */
    method GetUserShorts(rpc: Result<seq<PbShortener>>) returns (r: Result<Option<seq<UserShorts>>>)
      ensures rpc.Fail? ==> r == Fail(rpc.err)
      ensures rpc.Ok? && |rpc.value| == 0 ==> r == Ok(None)
      ensures rpc.Ok? && |rpc.value| > 0 ==> r.Ok? && r.value.Some? && |r.value.value| == |rpc.value|
      ensures rpc.Ok? && |rpc.value| > 0 ==> forall i :: 0 <= i < |rpc.value| ==>
        var q := rpc.value[i]; var u := r.value.value[i];
        u.id == q.id && u.fullURL == q.fullUrl && u.shortURL == q.shortUrl && u.visited == q.visited
      ensures r == UserShortsOf(rpc)
    {
      if rpc.Fail? {
        return Fail(rpc.err);
      }
      var data := rpc.value;
      if |data| < 1 {
        return Ok(None);
      }
      var shorteners := new UserShorts[|data|];
      for i := 0 to |data|
        invariant forall k :: 0 <= k < i ==> shorteners[k] == ToUserShorts(data[k])
      {
        shorteners[i] := ToUserShorts(data[i]);
      }
      assert shorteners[..] == UserShortsOf(rpc).value.value;
      return Ok(Some(shorteners[..]));
    }

    /** `GenerateUserShorts`, with `code` the random eight-letter string. */
    method GenerateUserShorts(userID: string, req: ShortUserRequest, code: string, publishFault: Option<Error>)
      returns (r: Result<ShortUserResponse>)
      modifies backend
      ensures (r, backend.Snapshot()) == GenerateStep(old(backend.Snapshot()), userID, req, shortenerBase, code, publishFault)
    {
      var msg := GenerateShortUserMessage(req.fullURL, userID, code);
      var err := backend.PublishCreateUserShortener(msg, publishFault);
      if err.Some? {
        return Fail(err.value);
      }
      return Ok(ShortUserResponse(shortenerBase + "/" + msg.shortURL, "GET"));
    }

    /** `UpdateUserProfile`. */
    method UpdateUserProfile(userID: string, req: EditProfileRequest, writeFault: Option<Error>) returns (err: Option<Error>)
      modifies backend
      ensures (err, backend.Snapshot()) == ProfileStep(old(backend.Snapshot()), userID, req, writeFault)
    {
      if req.fullName == "" {
        return Some(NewError(Validation, "Full Name Required"));
      }
      if Utf8Len(req.fullName) < 3 {
        return Some(NewError(Validation, "Full Name must more than 3"));
      }
      err := backend.UpdateProfileByID(userID, req.fullName, writeFault);
    }

    /** `UploadUserAvatar`. */
    method UploadUserAvatar(userID: string, io: UploadIo) returns (r: Result<UploadAvatarResponse>)
      modifies backend
      ensures (r, backend.Snapshot()) == AvatarStep(old(backend.Snapshot()), userID, store, io)
    {
      if io.form.Fail? {
        return Fail(io.form.err);
      }
      var file := io.form.value;
      if io.openFault.Some? {
        return Fail(io.openFault.value);
      }
      var contentType := file.contentType;
      var fileName := AvatarName(file.filename, userID);
      if !(contentType == "image/jpeg" || contentType == "image/png") {
        return Fail(NewError(Validation, InvalidFileMessage));
      }
      if io.copied.Fail? {
        return Fail(io.copied.err);
      }
      var err := backend.Publish(UploadAvatar(UploadAvatarRequest(fileName, contentType, io.copied.value)), io.publishFault);
      if err.Some? {
        return Fail(err.value);
      }
      var fileUrl := AvatarUrl(store, fileName);
      err := backend.Write(AvatarWrite(userID, fileUrl), io.writeFault);
      if err.Some? {
        return Fail(err.value);
      }
      return Ok(UploadAvatarResponse(fileUrl));
    }

    /** `UpdateUserShorts`. */
    method UpdateUserShorts(shortID: string, req: ShortUserRequest, publishFault: Option<Error>)
      returns (r: Result<ShortUserResponse>)
      modifies backend
      ensures (r, backend.Snapshot()) == RelayStep(old(backend.Snapshot()), UpdateShortener(shortID, req), publishFault)
    {
      var err := backend.Publish(UpdateShortener(shortID, req), publishFault);
      if err.Some? {
        return Fail(err.value);
      }
      return Ok(ShortUserResponse("", ""));
    }

    /** `DeleteUserShorts`. */
    method DeleteUserShorts(shortID: string, publishFault: Option<Error>) returns (r: Result<ShortUserResponse>)
      modifies backend
      ensures (r, backend.Snapshot()) == RelayStep(old(backend.Snapshot()), DeleteShortener(shortID), publishFault)
    {
      var err := backend.Publish(DeleteShortener(shortID), publishFault);
      if err.Some? {
        return Fail(err.value);
      }
      return Ok(ShortUserResponse("", ""));
    }
  }
}
