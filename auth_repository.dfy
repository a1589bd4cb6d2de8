/** The auth service's data access layer (auth/internal/v1/repository/auth.go):
    the `users` document collection and the Redis keys that map a
    registration code to the email it verifies.

    As in the shortener, every I/O call takes the failure the server would
    report as a parameter, and the clock is a parameter. */
module AuthRepository {
  import opened Errors
  import opened Documents

  /** A stored user (model.User with the two fields CreateUser writes). */
  datatype User = User(id: ObjectId, fullName: string, email: string, password: string,
                       createdAt: int, isVerified: bool)

  /** A registration code key: the email it verifies and its TTL in minutes. */
  datatype CodeEntry = CodeEntry(email: string, ttlMinutes: int)

  /** Redis GET: a value, a miss (`redis.Nil`), or another failure. */
  datatype CodeLookup = Found(email: string) | Missing | LookupError(err: Error)

  datatype AuthStores = AuthStores(users: seq<User>, codes: map<string, CodeEntry>, nextId: nat)

  /** Ids are distinct and below the next one handed out; no two users share
      an email, since CreateUser inserts only after finding none. */
  predicate AuthValid(s: AuthStores) {
    && (forall i :: 0 <= i < |s.users| ==> s.users[i].id.n < s.nextId)
    && (forall i, j :: 0 <= i < j < |s.users| ==> s.users[i].id != s.users[j].id)
    && (forall i, j :: 0 <= i < j < |s.users| ==> s.users[i].email != s.users[j].email)
  }

  /** The filter of CreateUser's existence check and of UpdateVerifyStatusByEmail. */
  function FindByEmailAny(users: seq<User>, email: string): Option<nat> {
    FirstWhere(users, (u: User) => u.email == email)
  }

  /** The filter of FindByEmail: the email, and verified. */
  function FindVerified(users: seq<User>, email: string): Option<nat> {
    FirstWhere(users, (u: User) => u.email == email && u.isVerified)
  }

  /** InsertOne of CreateUser: the request's name, email and password, the
      clock, unverified, under a fresh id. */
  function InsertUser(s: AuthStores, req: User, now: int): (t: AuthStores)
    ensures t.users == s.users + [User(ObjectId(s.nextId), req.fullName, req.email, req.password, now, false)]
    ensures t.codes == s.codes && t.nextId == s.nextId + 1
  {
    s.(users := s.users + [User(ObjectId(s.nextId), req.fullName, req.email, req.password, now, false)],
       nextId := s.nextId + 1)
  }

  /** SetEx of the code key. */
  function SetCode(s: AuthStores, code: string, email: string, ttl: int): AuthStores {
    s.(codes := s.codes[code := CodeEntry(email, ttl)])
  }

  /** UpdateOne `$set is_verified: true` on the first user with that email;
      with no such user nothing changes and no error is reported. */
  function MarkVerified(s: AuthStores, email: string): (t: AuthStores)
    ensures |t.users| == |s.users| && t.codes == s.codes && t.nextId == s.nextId
    ensures forall j :: 0 <= j < |s.users| ==>
      t.users[j] == if Some(j) == FindByEmailAny(s.users, email) then s.users[j].(isVerified := true) else s.users[j]
  {
    match FindByEmailAny(s.users, email)
    case None => s
    case Some(i) => s.(users := s.users[i := s.users[i].(isVerified := true)])
  }

  lemma InsertUserValid(s: AuthStores, req: User, now: int)
    requires AuthValid(s) && FindByEmailAny(s.users, req.email).None?
    ensures AuthValid(InsertUser(s, req, now))
  {
  }

  lemma MarkVerifiedValid(s: AuthStores, email: string)
    requires AuthValid(s)
    ensures AuthValid(MarkVerified(s, email))
  {
    var t := MarkVerified(s, email);
    forall i, j | 0 <= i < j < |t.users|
      ensures t.users[i].id != t.users[j].id && t.users[i].email != t.users[j].email
    {
      assert t.users[i].id == s.users[i].id && t.users[i].email == s.users[i].email;
      assert t.users[j].id == s.users[j].id && t.users[j].email == s.users[j].email;
    }
  }

  /** AuthRepositoryImpl. */
  class AuthRepo {
    var users: seq<User>
    var codes: map<string, CodeEntry>
    var nextId: nat

    function Snapshot(): AuthStores
      reads this
    {
      AuthStores(users, codes, nextId)
    }

    ghost predicate Valid()
      reads this
    {
      AuthValid(Snapshot())
    }

    constructor ()
      ensures Valid() && Snapshot() == AuthStores([], map[], 0)
    {
      users, codes, nextId := [], map[], 0;
    }

    /** CreateUser: look the email up among all users; if it is there the
        request is refused, otherwise the user is inserted. `idTyped` says
        whether the driver's inserted id came back as an ObjectID; when it
        did not, the user is stored but the call reports a Type error. */
    method CreateUser(req: User, now: int, findFault: Option<Error>, insertFault: Option<Error>, idTyped: bool)
      returns (r: Result<User>)
      requires Valid()
      modifies this
      ensures Valid()
      ensures var before := old(Snapshot());
        var taken := FindByEmailAny(before.users, req.email).Some?;
        && (findFault.Some? ==> r == Fail(findFault.value) && Snapshot() == before)
        && (findFault.None? && taken ==> r == Fail(NewError(Validation, "email already exists")) && Snapshot() == before)
        && (findFault.None? && !taken && insertFault.Some? ==> r == Fail(insertFault.value) && Snapshot() == before)
        && (findFault.None? && !taken && insertFault.None? ==>
              Snapshot() == InsertUser(before, req, now)
              && r == (if idTyped then Ok(req.(id := ObjectId(before.nextId)))
                       else Fail(NewError(Type, "type assertion error"))))
    {
      if findFault.Some? {
        return Fail(findFault.value);
      }
      var found := FindByEmailAny(users, req.email);
      if found.None? {
        if insertFault.Some? {
          return Fail(insertFault.value);
        }
        var id := ObjectId(nextId);
        users := users + [User(id, req.fullName, req.email, req.password, now, false)];
        nextId := nextId + 1;
        if !idTyped {
          return Fail(NewError(Type, "type assertion error"));
        }
        return Ok(req.(id := id));
      }
      return Fail(NewError(Validation, "email already exists"));
    }

    /** FindByEmail: only a verified user with that email is found. */
    method FindByEmail(email: string, fault: Option<Error>) returns (r: Result<User>)
      ensures fault.Some? ==> r == Fail(fault.value)
      ensures fault.None? ==> match FindVerified(users, email)
        case None => r == Fail(NewError(NotFound, "users not found"))
        case Some(i) => r == Ok(users[i])
    {
      if fault.Some? {
        return Fail(fault.value);
      }
      var found := FindVerified(users, email);
      if found.None? {
        return Fail(NewError(NotFound, "users not found"));
      }
      return Ok(users[found.value]);
    }

    method SetRegisterVerificationByEmail(email: string, code: string, ttl: int, fault: Option<Error>)
      returns (err: Option<Error>)
      requires Valid()
      modifies this
      ensures Valid() && err == fault
      ensures Snapshot() == if fault.Some? then old(Snapshot()) else SetCode(old(Snapshot()), code, email, ttl)
    {
      if fault.Some? {
        return fault;
      }
      codes := codes[code := CodeEntry(email, ttl)];
      return None;
    }

    method GetRegisterVerificationByCode(code: string, fault: Option<Error>) returns (r: CodeLookup)
      ensures fault.Some? ==> r == LookupError(fault.value)
      ensures fault.None? ==> r == if code in codes then Found(codes[code].email) else Missing
    {
      if fault.Some? {
        return LookupError(fault.value);
      }
      if code !in codes {
        return Missing;
      }
      return Found(codes[code].email);
    }

    method UpdateVerifyStatusByEmail(email: string, fault: Option<Error>) returns (err: Option<Error>)
      requires Valid()
      modifies this
      ensures Valid() && err == fault
      ensures Snapshot() == if fault.Some? then old(Snapshot()) else MarkVerified(old(Snapshot()), email)
    {
      if fault.Some? {
        return fault;
      }
      MarkVerifiedValid(Snapshot(), email);
      var found := FindByEmailAny(users, email);
      if found.Some? {
        var i := found.value;
        users := users[i := users[i].(isVerified := true)];
      }
      return None;
    }
  }

  /** After SetRegisterVerificationByEmail(email, code), the lookup of code
      yields email; every other code keeps its entry and the users are
      untouched. */
  lemma SetThenGetCode(s: AuthStores, code: string, email: string, ttl: int)
    ensures var t := SetCode(s, code, email, ttl);
      && code in t.codes && t.codes[code].email == email
      && (forall c :: c != code ==> (c in t.codes <==> c in s.codes))
      && (forall c :: c != code && c in s.codes ==> t.codes[c] == s.codes[c])
      && t.users == s.users && t.nextId == s.nextId
  {
  }
}
