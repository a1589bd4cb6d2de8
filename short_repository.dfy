/** The shortener's data access layer (shortener/internal/v1/repository/short.go):
    the `shorteners` document collection, the Redis cache of resolved codes and
    the update-visitor queue, kept together in one `ShortRepo` object as the
    Go struct keeps the three connections.

    Every I/O call takes the failure the server would report as a parameter
    (`None` when the call succeeds). Clock readings are parameters too. */
module ShortRepository {
  import opened Errors
  import opened Text
  import opened Documents

  const MaxInt64: int := 0x7fff_ffff_ffff_ffff
  const MinInt64: int := -0x8000_0000_0000_0000

  predicate InInt64(v: int) {
    MinInt64 <= v <= MaxInt64
  }

  /** Go's `v + 1` on an `int64`: wraps to the least value at the top. */
  function Inc64(v: int): (r: int)
    requires InInt64(v)
    ensures InInt64(r)
    ensures v < MaxInt64 ==> r == v + 1
    ensures v == MaxInt64 ==> r == MinInt64
  {
    if v == MaxInt64 then MinInt64 else v + 1
  }

  /** A stored short link: model.Short plus the two timestamps the repository
      writes (`created_at` on insert, `updated_at` on a visit update). */
  datatype Short = Short(id: ObjectId, userID: string, fullURL: string, shortURL: string,
                         visited: int, createdAt: int, updatedAt: Option<int>)

  /** The fields of `model.Short`, in the order a stored document holds them
      (`_id` first, then the order of the insert): `_id`, `full_url`,
      `user_id`, `short_url`, `visited`. `created_at` and `updated_at` are not
      fields of `model.Short`, so decoding never fills them. */
  const DecodedFields: nat := 5

  /** What `cur.Decode(&short)` leaves in a fresh `model.Short` when the
      document's field number `failAt` (counted from 0 in document order) is
      the first that does not decode: every field before it is filled and the
      rest keep their zero value. `failAt >= DecodedFields` is a clean decode. */
  function DecodeShort(doc: Short, failAt: nat): (r: Short)
    ensures r.createdAt == 0 && r.updatedAt == None
    ensures failAt >= DecodedFields ==>
      r.id == doc.id && r.fullURL == doc.fullURL && r.userID == doc.userID
      && r.shortURL == doc.shortURL && r.visited == doc.visited
    ensures failAt == 0 ==> r == Short(ObjectId(0), "", "", "", 0, 0, None)
    ensures r.id == doc.id || r.id == ObjectId(0)
    ensures r.userID == doc.userID || r.userID == ""
  {
    Short(if failAt > 0 then doc.id else ObjectId(0),
          if failAt > 2 then doc.userID else "",
          if failAt > 1 then doc.fullURL else "",
          if failAt > 3 then doc.shortURL else "",
          if failAt > 4 then doc.visited else 0,
          0, None)
  }

  /** The field at which the document with this id stops decoding, given the
      ids of the documents that fail and where each fails. */
  function FailAt(failures: map<ObjectId, nat>, id: ObjectId): nat {
    if id in failures then failures[id] else DecodedFields
  }

  datatype CreateShortRequest = CreateShortRequest(userID: string, fullURL: string, shortURL: string)
  datatype UpdateVisitorRequest = UpdateVisitorRequest(shortURL: string)
  datatype UpdateShortRequest = UpdateShortRequest(id: ObjectId, fullURL: string)
  datatype DeleteShortRequest = DeleteShortRequest(id: ObjectId)

  /** A message body on the broker: a JSON object of string fields, or bytes
      that do not decode as one. */
  datatype Body = Json(fields: map<string, string>) | Malformed

  /** `json.Marshal` of an UpdateVisitorRequest, as PublishUpdateVisitorCount sends it. */
  function EncodeVisit(req: UpdateVisitorRequest): Body {
    Json(map["short_url" := req.shortURL])
  }

  /** `json.Unmarshal` into a zero UpdateVisitorRequest: a missing field stays
      empty; a body that does not decode leaves the zero request and reports
      failure (`ok` false). */
  function DecodeVisit(b: Body): (r: (UpdateVisitorRequest, bool))
    ensures r.1 <==> b.Json?
    ensures b.Malformed? ==> r.0 == UpdateVisitorRequest("")
  {
    match b
    case Malformed => (UpdateVisitorRequest(""), false)
    case Json(f) => (UpdateVisitorRequest(if "short_url" in f then f["short_url"] else ""), true)
  }

  /** What is published is what the consumer decodes. */
  lemma VisitRoundTrip(req: UpdateVisitorRequest)
    ensures DecodeVisit(EncodeVisit(req)) == (req, true)
  {
  }

  /** `json.Unmarshal` into a zero CreateShortRequest. */
  function DecodeCreate(b: Body): (r: (CreateShortRequest, bool))
    ensures r.1 <==> b.Json?
    ensures b.Malformed? ==> r.0 == CreateShortRequest("", "", "")
  {
    match b
    case Malformed => (CreateShortRequest("", "", ""), false)
    case Json(f) =>
      (CreateShortRequest(Field(f, "user_id"), Field(f, "full_url"), Field(f, "short_url")), true)
  }

  function Field(f: map<string, string>, key: string): string {
    if key in f then f[key] else ""
  }

  /** A cache entry: the destination URL and the TTL it was written with, in minutes. */
  datatype CacheEntry = CacheEntry(url: string, ttlMinutes: int)

  /** Outcome of a cache read: a hit, the cache's miss (`redis.Nil`), or any other failure. */
  datatype CacheLookup = Hit(url: string) | Miss | CacheError(err: Error)

  /** A snapshot of the three stores and the id generator. */
  datatype Stores = Stores(links: seq<Short>, cache: map<string, CacheEntry>, visits: seq<Body>, nextId: nat)

  /** The repository invariant: document ids are distinct and below the next
      id to be handed out, and visit counters are `int64` values. */
  predicate StoresValid(s: Stores) {
    && (forall i :: 0 <= i < |s.links| ==> s.links[i].id.n < s.nextId && InInt64(s.links[i].visited))
    && (forall i, j :: 0 <= i < j < |s.links| ==> s.links[i].id != s.links[j].id)
  }

  function FindByCode(links: seq<Short>, code: string): Option<nat> {
    FirstWhere(links, (l: Short) => l.shortURL == code)
  }

  function FindById(links: seq<Short>, id: ObjectId): Option<nat> {
    FirstWhere(links, (l: Short) => l.id == id)
  }

  // ----- state transitions, one per repository write -----

  /** `Create`: one new document with the request's fields, a fresh id, no visits yet. */
  function InsertLink(s: Stores, req: CreateShortRequest, now: int): (t: Stores)
    ensures t.links == s.links + [Short(ObjectId(s.nextId), req.userID, req.fullURL, req.shortURL, 0, now, None)]
    ensures t.cache == s.cache && t.visits == s.visits
  {
    s.(links := s.links + [Short(ObjectId(s.nextId), req.userID, req.fullURL, req.shortURL, 0, now, None)],
       nextId := s.nextId + 1)
  }

  /** `SetFullURLByKey`. */
  function CacheSet(s: Stores, code: string, url: string, ttl: int): (t: Stores)
    ensures t.links == s.links && t.visits == s.visits && t.nextId == s.nextId
    ensures code in t.cache && t.cache[code] == CacheEntry(url, ttl)
    ensures forall c :: c != code ==> (c in t.cache <==> c in s.cache)
    ensures forall c :: c != code && c in s.cache ==> t.cache[c] == s.cache[c]
  {
    s.(cache := s.cache[code := CacheEntry(url, ttl)])
  }

  /** `DeleteFullURLByKey`: removing an absent key is not an error. */
  function CacheDelete(s: Stores, code: string): (t: Stores)
    ensures t.links == s.links && t.visits == s.visits && t.nextId == s.nextId
    ensures code !in t.cache
    ensures forall c :: c != code ==> (c in t.cache <==> c in s.cache)
    ensures forall c :: c != code && c in s.cache ==> t.cache[c] == s.cache[c]
  {
    s.(cache := s.cache - {code})
  }

  /** `PublishUpdateVisitorCount`: one message on the update-visitor queue. */
  function Publish(s: Stores, req: UpdateVisitorRequest): Stores {
    s.(visits := s.visits + [EncodeVisit(req)])
  }

  /** `UpdateVisitorByShortURL(req, last)`: the first link with that code gets
      `visited = last + 1` (an assignment, not an increment) and a new
      `updated_at`; with no such link nothing changes. */
  function SetVisited(s: Stores, code: string, last: int, now: int): (t: Stores)
    requires InInt64(last)
  {
    match FindByCode(s.links, code)
    case None => s
    case Some(i) => s.(links := s.links[i := s.links[i].(visited := Inc64(last), updatedAt := Some(now))])
  }

  /** `UpdateFullURLByID`: the first link with that id gets the new destination. */
  function SetFullURL(s: Stores, id: ObjectId, url: string): (t: Stores)
    ensures t.cache == s.cache && t.visits == s.visits && t.nextId == s.nextId
    ensures |t.links| == |s.links|
    ensures forall j :: 0 <= j < |s.links| ==>
      t.links[j] == if Some(j) == FindById(s.links, id) then s.links[j].(fullURL := url) else s.links[j]
  {
    match FindById(s.links, id)
    case None => s
    case Some(i) => s.(links := s.links[i := s.links[i].(fullURL := url)])
  }

  /** `DeleteByID`: the first link with that id is removed. */
  function RemoveLink(s: Stores, id: ObjectId): (t: Stores)
    ensures t.cache == s.cache && t.visits == s.visits && t.nextId == s.nextId
    ensures FindById(s.links, id).None? ==> t.links == s.links
    ensures FindById(s.links, id).Some? ==>
      |t.links| == |s.links| - 1
      && multiset(t.links) + multiset{s.links[FindById(s.links, id).value]} == multiset(s.links)
  {
    match FindById(s.links, id)
    case None => s
    case Some(i) =>
      assert s.links == s.links[..i] + [s.links[i]] + s.links[i + 1..];
      s.(links := s.links[..i] + s.links[i + 1..])
  }

  lemma InsertLinkValid(s: Stores, req: CreateShortRequest, now: int)
    requires StoresValid(s)
    ensures StoresValid(InsertLink(s, req, now))
  {
  }

  /** A visit update touches only the counter and `updated_at` of the first
      link with that code, and keeps the invariant. */
  lemma SetVisitedFrame(s: Stores, code: string, last: int, now: int)
    requires StoresValid(s) && InInt64(last)
    ensures var t := SetVisited(s, code, last, now);
      && StoresValid(t) && |t.links| == |s.links| && t.cache == s.cache && t.visits == s.visits
      && forall j :: 0 <= j < |s.links| ==>
           t.links[j] == (if Some(j) == FindByCode(s.links, code)
                          then s.links[j].(visited := Inc64(last), updatedAt := Some(now))
                          else s.links[j])
  {
  }

  lemma RemoveLinkValid(s: Stores, id: ObjectId)
    requires StoresValid(s)
    ensures StoresValid(RemoveLink(s, id))
  {
    match FindById(s.links, id)
    case None =>
    case Some(i) =>
      var t := s.links[..i] + s.links[i + 1..];
      forall a, b | 0 <= a < b < |t| ensures t[a].id != t[b].id {
        var a' := if a < i then a else a + 1;
        var b' := if b < i then b else b + 1;
        assert t[a] == s.links[a'] && t[b] == s.links[b'];
      }
  }

  // ----- listing by owner -----

  /** Sort order of the listing: `created_at` descending, then `_id` descending. */
  predicate Before(a: Short, b: Short) {
    a.createdAt > b.createdAt || (a.createdAt == b.createdAt && a.id.n >= b.id.n)
  }

  predicate SortedDesc(xs: seq<Short>) {
    forall i, j :: 0 <= i < j < |xs| ==> Before(xs[i], xs[j])
  }

  /** The links owned by `userID`, in store order. */
  function OwnedBy(links: seq<Short>, userID: string): (r: seq<Short>)
    ensures forall x :: x in r <==> x in links && x.userID == userID
    ensures multiset(r) <= multiset(links)
    ensures forall x :: multiset(r)[x] == if x.userID == userID then multiset(links)[x] else 0
  {
    if links == [] then []
    else
      var rest := OwnedBy(links[1..], userID);
      assert links == [links[0]] + links[1..];
      if links[0].userID == userID then [links[0]] + rest else rest
  }

  function InsertSorted(x: Short, xs: seq<Short>): seq<Short> {
    if xs == [] || Before(x, xs[0]) then [x] + xs
    else [xs[0]] + InsertSorted(x, xs[1..])
  }

  lemma {:induction false} InsertSortedPerm(x: Short, xs: seq<Short>)
    ensures multiset(InsertSorted(x, xs)) == multiset(xs) + multiset{x}
  {
    if xs != [] && !Before(x, xs[0]) {
      InsertSortedPerm(x, xs[1..]);
      assert xs == [xs[0]] + xs[1..];
    }
  }

  lemma {:induction false} InsertSortedSorted(x: Short, xs: seq<Short>)
    requires SortedDesc(xs)
    ensures SortedDesc(InsertSorted(x, xs))
  {
    if xs == [] || Before(x, xs[0]) {
      var r := [x] + xs;
      forall i, j | 0 <= i < j < |r| ensures Before(r[i], r[j]) {
        if i == 0 && j > 1 {
          assert Before(xs[0], xs[j - 1]);
        }
      }
    } else {
      var rest := InsertSorted(x, xs[1..]);
      InsertSortedSorted(x, xs[1..]);
      InsertSortedPerm(x, xs[1..]);
      var r := [xs[0]] + rest;
      forall j | 0 < j < |r| ensures Before(xs[0], r[j]) {
        assert r[j] in multiset(rest);
        assert r[j] == x || r[j] in multiset(xs[1..]);
        if r[j] != x {
          assert r[j] in xs[1..];
          var k :| 0 <= k < |xs[1..]| && xs[1..][k] == r[j];
          assert Before(xs[0], xs[k + 1]);
        }
      }
    }
  }

  /** The order the store hands out `Find(..., SetSort(created_at -1, _id -1))`. */
  function SortNewestFirst(xs: seq<Short>): (r: seq<Short>)
    ensures SortedDesc(r) && multiset(r) == multiset(xs)
  {
    if xs == [] then []
    else
      var rest := SortNewestFirst(xs[1..]);
      InsertSortedSorted(xs[0], rest);
      InsertSortedPerm(xs[0], rest);
      assert xs == [xs[0]] + xs[1..];
      InsertSorted(xs[0], rest)
  }

  /** The documents the listing cursor visits. */
  function ListByUser(links: seq<Short>, userID: string): (r: seq<Short>)
    ensures SortedDesc(r)
    ensures forall x :: x in r <==> x in links && x.userID == userID
    ensures multiset(r) == multiset(OwnedBy(links, userID))
  {
    var r := SortNewestFirst(OwnedBy(links, userID));
    assert forall x :: x in r <==> x in multiset(r);
    r
  }

  /** The cursor loop of the listing: one entry per document, in order, each
      the record its decode leaves; a decode error is logged and the loop goes
      on. */
  method DecodeCursor(docs: seq<Short>, failures: map<ObjectId, nat>) returns (shorts: seq<Short>)
    ensures |shorts| == |docs|
    ensures forall k :: 0 <= k < |docs| ==> shorts[k] == DecodeShort(docs[k], FailAt(failures, docs[k].id))
  {
    shorts := [];
    var i := 0;
    while i < |docs|
      invariant 0 <= i <= |docs| && |shorts| == i
      invariant forall k :: 0 <= k < i ==> shorts[k] == DecodeShort(docs[k], FailAt(failures, docs[k].id))
    {
      var short := DecodeShort(docs[i], FailAt(failures, docs[i].id));
      shorts := shorts + [short];
      i := i + 1;
    }
  }

  /** The state of the shortener's three stores. */
  class ShortRepo {
    var links: seq<Short>
    var cache: map<string, CacheEntry>
    var visits: seq<Body>
    var nextId: nat

    function Snapshot(): Stores
      reads this
    {
      Stores(links, cache, visits, nextId)
    }

    ghost predicate Valid()
      reads this
    {
      StoresValid(Snapshot())
    }

    constructor ()
      ensures Valid() && Snapshot() == Stores([], map[], [], 0)
    {
      links, cache, visits, nextId := [], map[], [], 0;
    }

    /** The listing cursor: every document found is appended, a document that
        fails to decode as far as it decoded, so the result has one entry per
        matching document. `failures` maps the id of each document whose
        stored fields do not fit model.Short to the first field that fails. */
    method GetListShortenerByUserID(userID: string, failures: map<ObjectId, nat>,
                                    findFault: Option<Error>, cursorFault: Option<Error>)
      returns (r: Result<seq<Short>>)
      ensures findFault.Some? ==> r == Fail(findFault.value)
      ensures findFault.None? && cursorFault.Some? ==> r == Fail(cursorFault.value)
      ensures findFault.None? && cursorFault.None? ==> r.Ok?
      ensures r.Ok? ==>
        var docs := ListByUser(links, userID);
        && |r.value| == |docs|
        && forall i :: 0 <= i < |docs| ==>
             r.value[i] == DecodeShort(docs[i], FailAt(failures, docs[i].id))
    {
      if findFault.Some? {
        return Fail(findFault.value);
      }
      var shorts := DecodeCursor(ListByUser(links, userID), failures);
      if cursorFault.Some? {
        return Fail(cursorFault.value);
      }
      return Ok(shorts);
    }

    method Create(req: CreateShortRequest, now: int, fault: Option<Error>) returns (err: Option<Error>)
      requires Valid()
      modifies this
      ensures Valid()
      ensures err == fault
      ensures Snapshot() == if fault.Some? then old(Snapshot()) else InsertLink(old(Snapshot()), req, now)
    {
      if fault.Some? {
        return fault;
      }
      links := links + [Short(ObjectId(nextId), req.userID, req.fullURL, req.shortURL, 0, now, None)];
      nextId := nextId + 1;
      return None;
    }

    method GetByShortURL(code: string, fault: Option<Error>) returns (r: Result<Short>)
      ensures fault.Some? ==> r == Fail(fault.value)
      ensures fault.None? ==> match FindByCode(links, code)
        case None => r == Fail(NewError(NotFound, "short_url not found"))
        case Some(i) => r == Ok(links[i])
    {
      if fault.Some? {
        return Fail(fault.value);
      }
      var i := FindByCode(links, code);
      if i.None? {
        return Fail(NewError(NotFound, "short_url not found"));
      }
      return Ok(links[i.value]);
    }

    /** Lookup by id, used by the update and delete paths. */
    method GetByID(id: ObjectId, fault: Option<Error>) returns (r: Result<Short>)
      ensures fault.Some? ==> r == Fail(fault.value)
      ensures fault.None? ==> match FindById(links, id)
        case None => r == Fail(NewError(NotFound, "id not found"))
        case Some(i) => r == Ok(links[i])
    {
      if fault.Some? {
        return Fail(fault.value);
      }
      var i := FindById(links, id);
      if i.None? {
        return Fail(NewError(NotFound, "id not found"));
      }
      return Ok(links[i.value]);
    }

    method GetFullURLByKey(code: string, fault: Option<Error>) returns (r: CacheLookup)
      ensures fault.Some? ==> r == CacheError(fault.value)
      ensures fault.None? ==> r == if code in cache then Hit(cache[code].url) else Miss
    {
      if fault.Some? {
        return CacheError(fault.value);
      }
      if code !in cache {
        return Miss;
      }
      return Hit(cache[code].url);
    }

    method SetFullURLByKey(code: string, url: string, ttl: int, fault: Option<Error>) returns (err: Option<Error>)
      requires Valid()
      modifies this
      ensures Valid() && err == fault
      ensures Snapshot() == if fault.Some? then old(Snapshot()) else CacheSet(old(Snapshot()), code, url, ttl)
    {
      if fault.Some? {
        return fault;
      }
      cache := cache[code := CacheEntry(url, ttl)];
      return None;
    }

    method DeleteFullURLByKey(code: string, fault: Option<Error>) returns (err: Option<Error>)
      requires Valid()
      modifies this
      ensures Valid() && err == fault
      ensures Snapshot() == if fault.Some? then old(Snapshot()) else CacheDelete(old(Snapshot()), code)
    {
      if fault.Some? {
        return fault;
      }
      cache := cache - {code};
      return None;
    }

    method PublishUpdateVisitorCount(req: UpdateVisitorRequest, fault: Option<Error>) returns (err: Option<Error>)
      requires Valid()
      modifies this
      ensures Valid() && err == fault
      ensures Snapshot() == if fault.Some? then old(Snapshot()) else Publish(old(Snapshot()), req)
    {
      if fault.Some? {
        return fault;
      }
      visits := visits + [EncodeVisit(req)];
      return None;
    }

    method UpdateVisitorByShortURL(req: UpdateVisitorRequest, last: int, now: int, fault: Option<Error>)
      returns (err: Option<Error>)
      requires Valid() && InInt64(last)
      modifies this
      ensures Valid() && err == fault
      ensures Snapshot() == if fault.Some? then old(Snapshot()) else SetVisited(old(Snapshot()), req.shortURL, last, now)
    {
      if fault.Some? {
        return fault;
      }
      SetVisitedFrame(Snapshot(), req.shortURL, last, now);
      var t := SetVisited(Snapshot(), req.shortURL, last, now);
      links := t.links;
      return None;
    }

    method UpdateFullURLByID(req: UpdateShortRequest, fault: Option<Error>) returns (err: Option<Error>)
      requires Valid()
      modifies this
      ensures Valid() && err == fault
      ensures Snapshot() == if fault.Some? then old(Snapshot()) else SetFullURL(old(Snapshot()), req.id, req.fullURL)
    {
      if fault.Some? {
        return fault;
      }
      var i := FindById(links, req.id);
      if i.Some? {
        links := links[i.value := links[i.value].(fullURL := req.fullURL)];
      }
      return None;
    }

    method DeleteByID(req: DeleteShortRequest, fault: Option<Error>) returns (err: Option<Error>)
      requires Valid()
      modifies this
      ensures Valid() && err == fault
      ensures Snapshot() == if fault.Some? then old(Snapshot()) else RemoveLink(old(Snapshot()), req.id)
    {
      if fault.Some? {
        return fault;
      }
      RemoveLinkValid(Snapshot(), req.id);
      links := RemoveLink(Snapshot(), req.id).links;
      return None;
    }
  }
}
