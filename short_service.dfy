/** The shortener's service layer (shortener/internal/v1/service/short.go):
    cache-aside click resolution, visit accounting and the owner's link
    mutations, each a sequence of repository calls.

    Each operation is given twice: a `...Step` function that states the
    transition on a `Stores` snapshot, and a `ShortService` method that makes
    the repository calls in the source's order and is proved to perform that
    transition. The lemmas are about the step functions. */
module ShortService {
  import opened Errors
  import opened Text
  import opened Documents
  import opened ShortRepository

  datatype ClickShortResponse = ClickShortResponse(fullURL: string)

  /** `url.ParseRequestURI`, reduced to the text of the error it reports
      (`None` when the URL parses). */
  type UriParser = string -> Option<string>

  /** Failures of the four calls a click may make. */
  datatype ClickIo = ClickIo(cacheGet: Option<Error>, storeGet: Option<Error>,
                             cacheSet: Option<Error>, publish: Option<Error>)

  const NoClickFaults: ClickIo := ClickIo(None, None, None, None)

  /** Failures of a store read and a store write, and the clock at the write. */
  datatype StoreIo = StoreIo(read: Option<Error>, write: Option<Error>, now: int)

  /** Failures of the three calls of an update or delete. */
  datatype MutateIo = MutateIo(read: Option<Error>, invalidate: Option<Error>, write: Option<Error>)

  /** `validateClickShort`: a code is accepted iff its byte length is 8. */
  function ValidateClickShort(req: UpdateVisitorRequest): (r: Option<Error>)
    ensures r.None? <==> Utf8Len(req.shortURL) == 8
    ensures r.Some? ==> HasKind(r.value, Validation)
    ensures req.shortURL == [] ==> r == Some(NewError(Validation, "short URL cannot be empty"))
  {
    if req.shortURL == "" then Some(NewError(Validation, "short URL cannot be empty"))
    else if Utf8Len(req.shortURL) != 8 then Some(NewError(Validation, "short URL length must be 8"))
    else None
  }

  /** `validateCreateShort` (and the same check at the head of UpdateShort):
      a URL that `url.ParseRequestURI` rejects is a Validation error carrying
      the parser's message. */
  function ValidateUrl(fullURL: string, parse: UriParser): (r: Option<Error>)
    ensures r.None? <==> parse(fullURL).None?
    ensures r.Some? ==> r.value == NewError(Validation, parse(fullURL).value) && HasKind(r.value, Validation)
  {
    match parse(fullURL)
    case None => None
    case Some(msg) => Some(NewError(Validation, msg))
  }

  // ----- the transitions -----

  /** ClickShort: validate, read the cache; on a miss read the store and fill
      the cache; then publish one visit event. */
  function ClickStep(s: Stores, code: string, ttl: int, io: ClickIo): (Result<ClickShortResponse>, Stores) {
    var req := UpdateVisitorRequest(code);
    match ValidateClickShort(req)
    case Some(e) => (Fail(e), s)
    case None =>
      if io.cacheGet.Some? then (Fail(io.cacheGet.value), s)
      else if code in s.cache then
        if io.publish.Some? then (Fail(io.publish.value), s)
        else (Ok(ClickShortResponse(s.cache[code].url)), Publish(s, req))
      else if io.storeGet.Some? then (Fail(io.storeGet.value), s)
      else match FindByCode(s.links, code)
        case None => (Fail(NewError(NotFound, "short_url not found")), s)
        case Some(i) =>
          var url := s.links[i].fullURL;
          if io.cacheSet.Some? then (Fail(io.cacheSet.value), s)
          else
            var s1 := CacheSet(s, code, url, ttl);
            if io.publish.Some? then (Fail(io.publish.value), s1)
            else (Ok(ClickShortResponse(url)), Publish(s1, req))
  }

  /** UpdateVisitorShort: read the link's counter, then write it back plus one. */
  function VisitStep(s: Stores, req: UpdateVisitorRequest, io: StoreIo): (Option<Error>, Stores)
    requires StoresValid(s)
  {
    if io.read.Some? then (io.read, s)
    else match FindByCode(s.links, req.shortURL)
      case None => (Some(NewError(NotFound, "short_url not found")), s)
      case Some(i) =>
        if io.write.Some? then (io.write, s)
        else (None, SetVisited(s, req.shortURL, s.links[i].visited, io.now))
  }

  /** CreateShort: validate the URL, then insert. */
  function CreateStep(s: Stores, req: CreateShortRequest, parse: UriParser, io: StoreIo): (Option<Error>, Stores) {
    if ValidateUrl(req.fullURL, parse).Some? then (ValidateUrl(req.fullURL, parse), s)
    else if io.write.Some? then (io.write, s)
    else (None, InsertLink(s, req, io.now))
  }

  /** UpdateShort: validate, find the link by id, drop its cache entry, then
      write the new destination. */
  function UpdateStep(s: Stores, req: UpdateShortRequest, parse: UriParser, io: MutateIo): (Option<Error>, Stores) {
    if ValidateUrl(req.fullURL, parse).Some? then (ValidateUrl(req.fullURL, parse), s)
    else if io.read.Some? then (io.read, s)
    else match FindById(s.links, req.id)
      case None => (Some(NewError(NotFound, "id not found")), s)
      case Some(i) =>
        if io.invalidate.Some? then (io.invalidate, s)
        else
          var s1 := CacheDelete(s, s.links[i].shortURL);
          if io.write.Some? then (io.write, s1)
          else (None, SetFullURL(s1, req.id, req.fullURL))
  }

  /** DeleteShort: find the link by id, drop its cache entry, then delete it. */
  function DeleteStep(s: Stores, req: DeleteShortRequest, io: MutateIo): (Option<Error>, Stores) {
    if io.read.Some? then (io.read, s)
    else match FindById(s.links, req.id)
      case None => (Some(NewError(NotFound, "id not found")), s)
      case Some(i) =>
        if io.invalidate.Some? then (io.invalidate, s)
        else
          var s1 := CacheDelete(s, s.links[i].shortURL);
          if io.write.Some? then (io.write, s1)
          else (None, RemoveLink(s1, req.id))
  }

  /** The store invariant survives every step the queue consumer runs. */
  lemma VisitStepValid(s: Stores, req: UpdateVisitorRequest, io: StoreIo)
    requires StoresValid(s)
    ensures StoresValid(VisitStep(s, req, io).1)
  {
    match FindByCode(s.links, req.shortURL)
    case None =>
    case Some(i) => SetVisitedFrame(s, req.shortURL, s.links[i].visited, io.now);
  }

  lemma CreateStepValid(s: Stores, req: CreateShortRequest, parse: UriParser, io: StoreIo)
    requires StoresValid(s)
    ensures StoresValid(CreateStep(s, req, parse, io).1)
  {
    InsertLinkValid(s, req, io.now);
  }

  // ----- properties of a click -----

  /** A code whose byte length is not 8 (the empty code included) is a
      Validation error, whatever the I/O would have done, and nothing is read
      or written. */
  lemma ClickRejectsBadCode(s: Stores, code: string, ttl: int, io: ClickIo)
    requires Utf8Len(code) != 8
    ensures ClickStep(s, code, ttl, io).1 == s
    ensures ClickStep(s, code, ttl, io).0.Fail? && HasKind(ClickStep(s, code, ttl, io).0.err, Validation)
  {
  }

  /** Every click, whatever its outcome: the link store is untouched, exactly
      one visit event for the code is queued when it succeeds and none when it
      fails, and after a success the cache maps the code to the URL returned. */
  lemma ClickEffects(s: Stores, code: string, ttl: int, io: ClickIo)
    ensures var (r, t) := ClickStep(s, code, ttl, io);
      && t.links == s.links && t.nextId == s.nextId
      && t.visits == s.visits + (if r.Ok? then [EncodeVisit(UpdateVisitorRequest(code))] else [])
      && (r.Ok? ==> code in t.cache && t.cache[code].url == r.value.fullURL)
      && (forall c :: c != code ==> (c in t.cache <==> c in s.cache))
      && (forall c :: c != code && c in t.cache ==> t.cache[c] == s.cache[c])
  {
  }

  /** Cache hit: the cached URL, the stores unchanged, one event queued. */
  lemma ClickHit(s: Stores, code: string, ttl: int, io: ClickIo)
    requires Utf8Len(code) == 8 && io.cacheGet.None? && io.publish.None? && code in s.cache
    ensures ClickStep(s, code, ttl, io)
         == (Ok(ClickShortResponse(s.cache[code].url)),
             s.(visits := s.visits + [EncodeVisit(UpdateVisitorRequest(code))]))
  {
  }

  /** Cache miss, code stored: the stored URL, the cache filled with the
      configured TTL, one event queued. */
  lemma ClickMissFound(s: Stores, code: string, ttl: int, io: ClickIo)
    requires Utf8Len(code) == 8 && io == NoClickFaults && code !in s.cache
    requires FindByCode(s.links, code).Some?
    ensures var url := s.links[FindByCode(s.links, code).value].fullURL;
      ClickStep(s, code, ttl, io)
        == (Ok(ClickShortResponse(url)),
            s.(cache := s.cache[code := CacheEntry(url, ttl)],
               visits := s.visits + [EncodeVisit(UpdateVisitorRequest(code))]))
  {
  }

  /** Cache miss, code not stored: NotFound, and the cache, the store and the
      queue are untouched. */
  lemma ClickMissNotFound(s: Stores, code: string, ttl: int, io: ClickIo)
    requires Utf8Len(code) == 8 && io.cacheGet.None? && io.storeGet.None? && code !in s.cache
    requires FindByCode(s.links, code).None?
    ensures ClickStep(s, code, ttl, io) == (Fail(NewError(NotFound, "short_url not found")), s)
  {
  }

  /** A cache failure other than a miss is returned as it is, before any
      store read or publish; a publish failure fails the click although the
      URL was found. */
  lemma ClickFaults(s: Stores, code: string, ttl: int, io: ClickIo)
    requires Utf8Len(code) == 8
    ensures io.cacheGet.Some? ==> ClickStep(s, code, ttl, io) == (Fail(io.cacheGet.value), s)
    ensures io.cacheGet.None? && io.publish.Some? && io.storeGet.None? && io.cacheSet.None?
            && (code in s.cache || FindByCode(s.links, code).Some?)
            ==> ClickStep(s, code, ttl, io).0 == Fail(io.publish.value)
  {
  }

  // ----- the outcomes of the other steps -----

  /** UpdateVisitorShort, branch by branch: a store read failure and an
      unknown code leave the store as it was ("short_url not found" for the
      latter); once the link is found a write failure changes nothing either,
      and a clean write raises that link's counter by one (int64) and stamps
      it, with the cache and the queue untouched. */
  lemma VisitOutcomes(s: Stores, req: UpdateVisitorRequest, io: StoreIo)
    requires StoresValid(s)
    ensures io.read.Some? ==> VisitStep(s, req, io) == (io.read, s)
    ensures io.read.None? && FindByCode(s.links, req.shortURL).None?
            ==> VisitStep(s, req, io) == (Some(NewError(NotFound, "short_url not found")), s)
    ensures io.read.None? && FindByCode(s.links, req.shortURL).Some? && io.write.Some?
            ==> VisitStep(s, req, io) == (io.write, s)
    ensures io.read.None? && FindByCode(s.links, req.shortURL).Some? && io.write.None? ==>
      var i := FindByCode(s.links, req.shortURL).value;
      var (err, t) := VisitStep(s, req, io);
      && err.None?
      && t.links == s.links[i := s.links[i].(visited := Inc64(s.links[i].visited), updatedAt := Some(io.now))]
      && t.cache == s.cache && t.visits == s.visits && t.nextId == s.nextId
  {
  }

  /** CreateShort: a URL the parser rejects is a Validation error carrying the
      parser's text, whatever the store would have done, and nothing is
      written; a write failure changes nothing; otherwise the link is added. */
  lemma CreateOutcomes(s: Stores, req: CreateShortRequest, parse: UriParser, io: StoreIo)
    ensures parse(req.fullURL).Some?
            ==> CreateStep(s, req, parse, io) == (Some(NewError(Validation, parse(req.fullURL).value)), s)
    ensures parse(req.fullURL).None? && io.write.Some? ==> CreateStep(s, req, parse, io) == (io.write, s)
    ensures parse(req.fullURL).None? && io.write.None? ==>
      var (err, t) := CreateStep(s, req, parse, io);
      && err.None?
      && t.links == s.links + [Short(ObjectId(s.nextId), req.userID, req.fullURL, req.shortURL, 0, io.now, None)]
      && t.cache == s.cache && t.visits == s.visits
  {
  }

  /** UpdateShort: a rejected URL is a Validation error before any store
      access; a read failure or an unknown id ("id not found") changes
      nothing; a failed cache invalidation returns before the write and leaves
      everything as it was; a failed write leaves the link as it was but its
      code already uncached; a clean run drops the code from the cache and
      gives the first link with the id the new URL. */
  lemma UpdateOutcomes(s: Stores, req: UpdateShortRequest, parse: UriParser, io: MutateIo)
    ensures parse(req.fullURL).Some?
            ==> UpdateStep(s, req, parse, io) == (Some(NewError(Validation, parse(req.fullURL).value)), s)
    ensures parse(req.fullURL).None? && io.read.Some? ==> UpdateStep(s, req, parse, io) == (io.read, s)
    ensures parse(req.fullURL).None? && io.read.None? && FindById(s.links, req.id).None?
            ==> UpdateStep(s, req, parse, io) == (Some(NewError(NotFound, "id not found")), s)
    ensures parse(req.fullURL).None? && io.read.None? && FindById(s.links, req.id).Some? ==>
      var i := FindById(s.links, req.id).value;
      var code := s.links[i].shortURL;
      var (err, t) := UpdateStep(s, req, parse, io);
      && (io.invalidate.Some? ==> err == io.invalidate && t == s)
      && (io.invalidate.None? && io.write.Some? ==> err == io.write && t == s.(cache := s.cache - {code}))
      && (io.invalidate.None? && io.write.None? ==>
            err.None?
            && t == s.(cache := s.cache - {code}, links := s.links[i := s.links[i].(fullURL := req.fullURL)]))
  {
  }

  /** DeleteShort: a read failure or an unknown id ("id not found") changes
      nothing; a failed cache invalidation returns before the delete and
      leaves everything as it was; a failed delete leaves the link but its
      code already uncached; a clean run drops the code from the cache and
      removes exactly the first link with the id. */
  lemma DeleteOutcomes(s: Stores, req: DeleteShortRequest, io: MutateIo)
    ensures io.read.Some? ==> DeleteStep(s, req, io) == (io.read, s)
    ensures io.read.None? && FindById(s.links, req.id).None?
            ==> DeleteStep(s, req, io) == (Some(NewError(NotFound, "id not found")), s)
    ensures io.read.None? && FindById(s.links, req.id).Some? ==>
      var i := FindById(s.links, req.id).value;
      var code := s.links[i].shortURL;
      var (err, t) := DeleteStep(s, req, io);
      && (io.invalidate.Some? ==> err == io.invalidate && t == s)
      && (io.invalidate.None? && io.write.Some? ==> err == io.write && t == s.(cache := s.cache - {code}))
      && (io.invalidate.None? && io.write.None? ==>
            err.None?
            && t == s.(cache := s.cache - {code}, links := s.links[..i] + s.links[i + 1..]))
  {
  }

  // ----- the cache never disagrees with the store -----

  /** Every cached code resolves in the store to the URL the cache holds. */
  predicate Coherent(s: Stores) {
    forall c :: c in s.cache ==>
      FindByCode(s.links, c).Some? && s.links[FindByCode(s.links, c).value].fullURL == s.cache[c].url
  }

  /** The URL the store resolves a code to, when it does. */
  function StoredUrl(s: Stores, code: string): Option<string> {
    match FindByCode(s.links, code)
    case None => None
    case Some(i) => Some(s.links[i].fullURL)
  }

  /** With a coherent cache, a successful click returns what the store holds,
      cold or warm, and leaves the cache coherent. */
  lemma ClickResolvesToStore(s: Stores, code: string, ttl: int, io: ClickIo)
    requires Coherent(s)
    ensures var (r, t) := ClickStep(s, code, ttl, io);
      && Coherent(t)
      && (r.Ok? ==> StoredUrl(s, code) == Some(r.value.fullURL))
  {
  }

  /** Resolving the same code twice without faults, cold then warm, gives the
      same URL. */
  lemma ClickTwiceSameUrl(s: Stores, code: string, ttl: int)
    requires ClickStep(s, code, ttl, NoClickFaults).0.Ok?
    ensures var t := ClickStep(s, code, ttl, NoClickFaults).1;
      ClickStep(t, code, ttl, NoClickFaults).0 == ClickStep(s, code, ttl, NoClickFaults).0
  {
    ClickEffects(s, code, ttl, NoClickFaults);
  }

  /** Two link lists with the same codes at the same places resolve every
      code to the same place. */
  lemma {:induction false} SameCodesSameFind(xs: seq<Short>, ys: seq<Short>, c: string)
    requires |xs| == |ys| && forall i :: 0 <= i < |xs| ==> xs[i].shortURL == ys[i].shortURL
    ensures FindByCode(xs, c) == FindByCode(ys, c)
  {
    var a, b := FindByCode(xs, c), FindByCode(ys, c);
    if a.Some? {
      assert ys[a.value].shortURL == c;
    }
    if b.Some? {
      assert xs[b.value].shortURL == c;
    }
  }

  /** Appending a link does not change where an already stored code resolves. */
  lemma FindAfterAppend(xs: seq<Short>, x: Short, c: string)
    requires FindByCode(xs, c).Some?
    ensures FindByCode(xs + [x], c) == FindByCode(xs, c)
  {
    var k := FindByCode(xs, c).value;
    var ys := xs + [x];
    assert ys[k].shortURL == c;
    assert forall j :: 0 <= j < |xs| ==> ys[j] == xs[j];
  }

  /** Removing a link with another code does not change which link a code
      resolves to. */
  lemma FindAfterRemove(xs: seq<Short>, i: nat, c: string)
    requires i < |xs| && xs[i].shortURL != c && FindByCode(xs, c).Some?
    ensures var ys := xs[..i] + xs[i + 1..];
      FindByCode(ys, c).Some? && ys[FindByCode(ys, c).value] == xs[FindByCode(xs, c).value]
  {
    var ys := xs[..i] + xs[i + 1..];
    var k := FindByCode(xs, c).value;
    var k' := if k < i then k else k - 1;
    assert ys[k'] == xs[k];
    assert forall j :: 0 <= j < |ys| ==> ys[j] == xs[if j < i then j else j + 1];
  }

  lemma VisitStepCoherent(s: Stores, req: UpdateVisitorRequest, io: StoreIo)
    requires StoresValid(s) && Coherent(s)
    ensures Coherent(VisitStep(s, req, io).1)
  {
    var t := VisitStep(s, req, io).1;
    if t != s {
      forall c | c in t.cache
        ensures FindByCode(t.links, c).Some? && t.links[FindByCode(t.links, c).value].fullURL == t.cache[c].url
      {
        SameCodesSameFind(s.links, t.links, c);
      }
    }
  }

  lemma CreateStepCoherent(s: Stores, req: CreateShortRequest, parse: UriParser, io: StoreIo)
    requires Coherent(s)
    ensures Coherent(CreateStep(s, req, parse, io).1)
  {
    var t := CreateStep(s, req, parse, io).1;
    if t != s {
      forall c | c in t.cache
        ensures FindByCode(t.links, c).Some? && t.links[FindByCode(t.links, c).value].fullURL == t.cache[c].url
      {
        FindAfterAppend(s.links, t.links[|s.links|], c);
        assert t.links == s.links + [t.links[|s.links|]];
      }
    }
  }

  /** Invalidate-before-write keeps the cache coherent through an update,
      including when the write fails after the invalidation. */
  lemma UpdateStepCoherent(s: Stores, req: UpdateShortRequest, parse: UriParser, io: MutateIo)
    requires Coherent(s)
    ensures Coherent(UpdateStep(s, req, parse, io).1)
  {
    var t := UpdateStep(s, req, parse, io).1;
    if t != s {
      var i := FindById(s.links, req.id).value;
      var code := s.links[i].shortURL;
      forall c | c in t.cache
        ensures FindByCode(t.links, c).Some? && t.links[FindByCode(t.links, c).value].fullURL == t.cache[c].url
      {
        SameCodesSameFind(s.links, t.links, c);
        assert c != code;
        assert FindByCode(s.links, c) != Some(i);
      }
    }
  }

  /** The same for a delete. */
  lemma DeleteStepCoherent(s: Stores, req: DeleteShortRequest, io: MutateIo)
    requires Coherent(s)
    ensures Coherent(DeleteStep(s, req, io).1)
  {
    var t := DeleteStep(s, req, io).1;
    if t != s && io.write.None? {
      var i := FindById(s.links, req.id).value;
      forall c | c in t.cache
        ensures FindByCode(t.links, c).Some? && t.links[FindByCode(t.links, c).value].fullURL == t.cache[c].url
      {
        FindAfterRemove(s.links, i, c);
      }
    }
  }

  /** After a successful update, the next fault-free click on the updated
      link's code resolves to the first link that holds the code. That is the
      updated link, with its new URL, when no earlier link shares the code.
      Otherwise it is the earlier link, whose URL the update did not touch.
      Codes are random and `CreateShort` never checks them for duplicates, so
      the second case is reachable. */
  lemma UpdateThenClickFirstHolder(s: Stores, req: UpdateShortRequest, parse: UriParser, ttl: int)
    requires FindById(s.links, req.id).Some?
    requires UpdateStep(s, req, parse, MutateIo(None, None, None)).0.None?
    ensures var code := s.links[FindById(s.links, req.id).value].shortURL;
      FindByCode(s.links, code).Some? && FindByCode(s.links, code).value <= FindById(s.links, req.id).value
    ensures var i := FindById(s.links, req.id).value;
      var code := s.links[i].shortURL;
      var t := UpdateStep(s, req, parse, MutateIo(None, None, None)).1;
      FindByCode(s.links, code).Some? && Utf8Len(code) == 8 ==>
        var k := FindByCode(s.links, code).value;
        ClickStep(t, code, ttl, NoClickFaults).0
          == Ok(ClickShortResponse(if k == i then req.fullURL else s.links[k].fullURL))
  {
    var i := FindById(s.links, req.id).value;
    var code := s.links[i].shortURL;
    var t := UpdateStep(s, req, parse, MutateIo(None, None, None)).1;
    assert t.links == s.links[i := s.links[i].(fullURL := req.fullURL)];
    SameCodesSameFind(s.links, t.links, code);
  }

  /** No two links share a code. */
  predicate UniqueCodes(links: seq<Short>) {
    forall i, j :: 0 <= i < j < |links| ==> links[i].shortURL != links[j].shortURL
  }

  /** When no two links share a code, the click after a successful update
      returns the new URL and not a stale cached one. */
  lemma UpdateThenClick(s: Stores, req: UpdateShortRequest, parse: UriParser, ttl: int)
    requires UniqueCodes(s.links) && FindById(s.links, req.id).Some?
    requires UpdateStep(s, req, parse, MutateIo(None, None, None)).0.None?
    ensures var code := s.links[FindById(s.links, req.id).value].shortURL;
      var t := UpdateStep(s, req, parse, MutateIo(None, None, None)).1;
      Utf8Len(code) == 8 ==> ClickStep(t, code, ttl, NoClickFaults).0 == Ok(ClickShortResponse(req.fullURL))
  {
    UpdateThenClickFirstHolder(s, req, parse, ttl);
  }

  // ----- the service object -----

  /** ShortServiceImpl: the repository and the configuration it reads. */
  class ShortService {
    const repo: ShortRepo
    /** Config.Redis.TTL, in minutes. */
    const ttl: int
    const parse: UriParser

    constructor (repo: ShortRepo, ttl: int, parse: UriParser)
      ensures this.repo == repo && this.ttl == ttl && this.parse == parse
    {
      this.repo := repo;
      this.ttl := ttl;
      this.parse := parse;
    }

    method GetListShortenerByUserID(userID: string, failures: map<ObjectId, nat>,
                                    findFault: Option<Error>, cursorFault: Option<Error>)
      returns (r: Result<seq<Short>>)
      ensures findFault.Some? ==> r == Fail(findFault.value)
      ensures findFault.None? && cursorFault.Some? ==> r == Fail(cursorFault.value)
      ensures findFault.None? && cursorFault.None? ==> r.Ok?
      ensures r.Ok? ==>
        var docs := ListByUser(repo.links, userID);
        && |r.value| == |docs|
        && (forall i :: 0 <= i < |docs| ==>
              r.value[i] == DecodeShort(docs[i], FailAt(failures, docs[i].id)))
        && (forall x :: x in r.value ==> x.userID == userID || x.userID == "")
    {
      r := repo.GetListShortenerByUserID(userID, failures, findFault, cursorFault);
      if r.Ok? {
        var docs := ListByUser(repo.links, userID);
        forall x | x in r.value ensures x.userID == userID || x.userID == "" {
          var i :| 0 <= i < |r.value| && r.value[i] == x;
          assert docs[i] in docs;
        }
      }
    }

    method ClickShort(code: string, io: ClickIo) returns (r: Result<ClickShortResponse>)
      requires repo.Valid()
      modifies repo
      ensures repo.Valid()
      ensures (r, repo.Snapshot()) == ClickStep(old(repo.Snapshot()), code, ttl, io)
    {
      var req := UpdateVisitorRequest(code);
      var invalid := ValidateClickShort(req);
      if invalid.Some? {
        return Fail(invalid.value);
      }
      var cached := repo.GetFullURLByKey(req.shortURL, io.cacheGet);
      match cached {
        case CacheError(e) =>
          return Fail(e);
        case Miss =>
          var data := repo.GetByShortURL(req.shortURL, io.storeGet);
          if data.Fail? {
            return Fail(data.err);
          }
          var err := repo.SetFullURLByKey(req.shortURL, data.value.fullURL, ttl, io.cacheSet);
          if err.Some? {
            return Fail(err.value);
          }
          err := repo.PublishUpdateVisitorCount(req, io.publish);
          if err.Some? {
            return Fail(err.value);
          }
          return Ok(ClickShortResponse(data.value.fullURL));
        case Hit(url) =>
          var err := repo.PublishUpdateVisitorCount(req, io.publish);
          if err.Some? {
            return Fail(err.value);
          }
          return Ok(ClickShortResponse(url));
      }
    }

    method UpdateVisitorShort(req: UpdateVisitorRequest, io: StoreIo) returns (err: Option<Error>)
      requires repo.Valid()
      modifies repo
      ensures repo.Valid()
      ensures (err, repo.Snapshot()) == VisitStep(old(repo.Snapshot()), req, io)
    {
      var data := repo.GetByShortURL(req.shortURL, io.read);
      if data.Fail? {
        return Some(data.err);
      }
      err := repo.UpdateVisitorByShortURL(req, data.value.visited, io.now, io.write);
    }

    method CreateShort(req: CreateShortRequest, io: StoreIo) returns (err: Option<Error>)
      requires repo.Valid()
      modifies repo
      ensures repo.Valid()
      ensures (err, repo.Snapshot()) == CreateStep(old(repo.Snapshot()), req, parse, io)
    {
      err := ValidateUrl(req.fullURL, parse);
      if err.Some? {
        return;
      }
      err := repo.Create(req, io.now, io.write);
    }

    method UpdateShort(req: UpdateShortRequest, io: MutateIo) returns (err: Option<Error>)
      requires repo.Valid()
      modifies repo
      ensures repo.Valid()
      ensures (err, repo.Snapshot()) == UpdateStep(old(repo.Snapshot()), req, parse, io)
    {
      err := ValidateUrl(req.fullURL, parse);
      if err.Some? {
        return;
      }
      var data := repo.GetByID(req.id, io.read);
      if data.Fail? {
        return Some(data.err);
      }
      err := repo.DeleteFullURLByKey(data.value.shortURL, io.invalidate);
      if err.Some? {
        return;
      }
      err := repo.UpdateFullURLByID(req, io.write);
    }

    method DeleteShort(req: DeleteShortRequest, io: MutateIo) returns (err: Option<Error>)
      requires repo.Valid()
      modifies repo
      ensures repo.Valid()
      ensures (err, repo.Snapshot()) == DeleteStep(old(repo.Snapshot()), req, io)
    {
      var data := repo.GetByID(req.id, io.read);
      if data.Fail? {
        return Some(data.err);
      }
      err := repo.DeleteFullURLByKey(data.value.shortURL, io.invalidate);
      if err.Some? {
        return;
      }
      err := repo.DeleteByID(req, io.write);
    }
  }
}
