/** The shortener's transport layer (shortener/internal/v1/controller/short.go):
    the gRPC listing, the HTTP click endpoint and the four queue handlers. */
module ShortController {
  import opened Errors
  import opened Text
  import opened Envelope
  import opened Documents
  import opened ShortRepository
  import opened ShortService

  // ----- gRPC: GetListShortenerByUserID -----

  datatype PbShortener = PbShortener(id: string, fullUrl: string, shortUrl: string, visited: int)

  /** codes.Internal of google.golang.org/grpc/codes. */
  const CodeInternal: int := 13

  datatype RpcStatus = RpcStatus(code: int, message: string)
  datatype RpcResult<T> = RpcOk(value: T) | RpcError(status: RpcStatus)

  const ListFailure: string := "Failed Get List Shortener By UserID "

  function ToPb(q: Short): (p: PbShortener)
    ensures p.id == Hex(q.id) && p.fullUrl == q.fullURL && p.shortUrl == q.shortURL && p.visited == q.visited
  {
    PbShortener(Hex(q.id), q.fullURL, q.shortURL, q.visited)
  }

  /** The response list, filled slot by slot as the handler's range loop does. */
  method ToPbList(data: seq<Short>) returns (r: seq<PbShortener>)
    ensures |r| == |data|
    ensures forall i :: 0 <= i < |data| ==>
      r[i].id == Hex(data[i].id) && r[i].fullUrl == data[i].fullURL
      && r[i].shortUrl == data[i].shortURL && r[i].visited == data[i].visited
  {
    var shorteners := new PbShortener[|data|];
    for i := 0 to |data|
      invariant forall k :: 0 <= k < i ==> shorteners[k] == ToPb(data[k])
    {
      shorteners[i] := ToPb(data[i]);
    }
    r := shorteners[..];
  }

  // ----- HTTP: ClickShortener -----

  const StatusTemporaryRedirect: int := 307
  const StatusBadRequest: int := 400
  const StatusNotFound: int := 404
  const StatusInternalServerError: int := 500

  /** What the click handler writes: a redirect, or a JSON envelope whose
      data is the requested code. */
  datatype ClickOut = Redirect(status: int, location: string) | Envelope(reply: Reply<string>)

  /** The status an error is reported with: it is classified by the kind
      text it contains, Validation before Not Found. */
  function ClickReply(code: string, r: Result<ClickShortResponse>): (o: ClickOut)
    ensures r.Ok? <==> o.Redirect?
    ensures r.Ok? ==> o == Redirect(StatusTemporaryRedirect, r.value.fullURL)
    ensures o.Envelope? ==> WellFormed(o.reply) && o.reply.body.data == code
                            && o.reply.body.error == Some(r.err)
    ensures r.Fail? && HasKind(r.err, Validation) ==> o.reply.status == StatusBadRequest
    ensures r.Fail? && !HasKind(r.err, Validation) && HasKind(r.err, NotFound) ==> o.reply.status == StatusNotFound
    ensures r.Fail? && !HasKind(r.err, Validation) && !HasKind(r.err, NotFound)
            ==> o.reply.status == StatusInternalServerError && o.reply.body.messages == "failed click shortener"
  {
    match r
    case Ok(data) => Redirect(StatusTemporaryRedirect, data.fullURL)
    case Fail(err) =>
      if Contains(err.text, KindText(Validation)) then
        Envelope(NewResponses(StatusBadRequest, err.text, code, Some(err), None))
      else if Contains(err.text, KindText(NotFound)) then
        Envelope(NewResponses(StatusNotFound, err.text, code, Some(err), None))
      else
        Envelope(NewResponses(StatusInternalServerError, "failed click shortener", code, Some(err), None))
  }

  /** An error built with NewError is reported with the status of its own
      kind, provided its message does not spell out another kind's text. */
  lemma ClickReplyByKind(code: string, k: ErrorKind, msg: string)
    requires Initial(Validation) !in msg && Initial(NotFound) !in msg
    ensures var o := ClickReply(code, Fail(NewError(k, msg)));
      o.reply.status == (if k == Validation then StatusBadRequest
                         else if k == NotFound then StatusNotFound
                         else StatusInternalServerError)
  {
    NewErrorKind(k, msg, Validation);
    NewErrorKind(k, msg, NotFound);
  }

  /** End to end: a malformed code is a 400, an unknown code a 404, and a
      known code with no I/O fault a 307 to the URL the store holds, whether
      or not the cache is warm. */
  lemma ClickShortenerOutcomes(s: Stores, code: string, ttl: int)
    requires Coherent(s)
    ensures var o := ClickReply(code, ClickStep(s, code, ttl, NoClickFaults).0);
      && (Utf8Len(code) != 8 ==> o.Envelope? && o.reply.status == StatusBadRequest)
      && (Utf8Len(code) == 8 && StoredUrl(s, code).None? ==> o.Envelope? && o.reply.status == StatusNotFound)
      && (Utf8Len(code) == 8 && StoredUrl(s, code).Some?
          ==> o == Redirect(StatusTemporaryRedirect, StoredUrl(s, code).value))
  {
    ClickResolvesToStore(s, code, ttl, NoClickFaults);
    if Utf8Len(code) == 8 && StoredUrl(s, code).None? {
      assert code !in s.cache;
      NewErrorKind(NotFound, "short_url not found", Validation);
    }
  }

  // ----- queue handlers -----

  /** What every Process* handler does with a service error: it is wrapped as
      an Internal error carrying the service error's text. */
  function AsInternal(e: Option<Error>): (r: Option<Error>)
    ensures r.Some? <==> e.Some?
    ensures r.Some? ==> HasKind(r.value, Internal) && HasPrefix(r.value.text, KindText(Internal))
                        && r.value.text[|KindText(Internal)|..] == ": " + e.value.text
  {
    match e
    case None => None
    case Some(err) => Some(NewError(Internal, err.text))
  }

  /** ShortControllerImpl. */
  class ShortController {
    const svc: ShortService

    constructor (svc: ShortService)
      ensures this.svc == svc
    {
      this.svc := svc;
    }

    method GetListShortenerByUserID(userID: string, failures: map<ObjectId, nat>,
                                    findFault: Option<Error>, cursorFault: Option<Error>)
      returns (r: RpcResult<seq<PbShortener>>)
      ensures findFault.Some? ==> r == RpcError(RpcStatus(CodeInternal, ListFailure + findFault.value.text))
      ensures findFault.None? && cursorFault.Some?
              ==> r == RpcError(RpcStatus(CodeInternal, ListFailure + cursorFault.value.text))
      ensures findFault.None? && cursorFault.None? ==> r.RpcOk?
      ensures r.RpcOk? ==>
        var docs := ListByUser(svc.repo.links, userID);
        && |r.value| == |docs|
        && forall i :: 0 <= i < |docs| ==>
             r.value[i] == ToPb(DecodeShort(docs[i], FailAt(failures, docs[i].id)))
    {
      var data := svc.GetListShortenerByUserID(userID, failures, findFault, cursorFault);
      if data.Fail? {
        return RpcError(RpcStatus(CodeInternal, ListFailure + data.err.text));
      }
      if |data.value| < 1 {
        return RpcOk([]);
      }
      var shorteners := ToPbList(data.value);
      return RpcOk(shorteners);
    }

    method ClickShortener(code: string, io: ClickIo) returns (o: ClickOut)
      requires svc.repo.Valid()
      modifies svc.repo
      ensures svc.repo.Valid()
      ensures var (r, t) := ClickStep(old(svc.repo.Snapshot()), code, svc.ttl, io);
        o == ClickReply(code, r) && svc.repo.Snapshot() == t
    {
      var data := svc.ClickShort(code, io);
      o := ClickReply(code, data);
    }

    method ProcessCreateShortUser(msg: CreateShortRequest, io: StoreIo) returns (err: Option<Error>)
      requires svc.repo.Valid()
      modifies svc.repo
      ensures svc.repo.Valid()
      ensures var (e, t) := CreateStep(old(svc.repo.Snapshot()), msg, svc.parse, io);
        err == AsInternal(e) && svc.repo.Snapshot() == t
    {
      var req := CreateShortRequest(msg.userID, msg.fullURL, msg.shortURL);
      var e := svc.CreateShort(req, io);
      err := AsInternal(e);
    }

    method ProcessUpdateVisitorCount(msg: UpdateVisitorRequest, io: StoreIo) returns (err: Option<Error>)
      requires svc.repo.Valid()
      modifies svc.repo
      ensures svc.repo.Valid()
      ensures var (e, t) := VisitStep(old(svc.repo.Snapshot()), msg, io);
        err == AsInternal(e) && svc.repo.Snapshot() == t
    {
      var req := UpdateVisitorRequest(msg.shortURL);
      var e := svc.UpdateVisitorShort(req, io);
      err := AsInternal(e);
    }

    method ProcessUpdateShortUser(msg: UpdateShortRequest, io: MutateIo) returns (err: Option<Error>)
      requires svc.repo.Valid()
      modifies svc.repo
      ensures svc.repo.Valid()
      ensures var (e, t) := UpdateStep(old(svc.repo.Snapshot()), msg, svc.parse, io);
        err == AsInternal(e) && svc.repo.Snapshot() == t
    {
      var req := UpdateShortRequest(msg.id, msg.fullURL);
      var e := svc.UpdateShort(req, io);
      err := AsInternal(e);
    }

    method ProcessDeleteShortUser(msg: DeleteShortRequest, io: MutateIo) returns (err: Option<Error>)
      requires svc.repo.Valid()
      modifies svc.repo
      ensures svc.repo.Valid()
      ensures var (e, t) := DeleteStep(old(svc.repo.Snapshot()), msg, io);
        err == AsInternal(e) && svc.repo.Snapshot() == t
    {
      var req := DeleteShortRequest(msg.id);
      var e := svc.DeleteShort(req, io);
      err := AsInternal(e);
    }
  }
}
