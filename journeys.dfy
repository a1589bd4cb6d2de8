/** Paths through more than one service. The access token the auth service
    issues at login is what the user service's middleware accepts: the token
    string is opaque to both, and what ties them is what the JWT library
    decodes it to, the claim map `generateJWT` signed. A link the user
    service generates is queued, created by the shortener's consumer, and
    then resolves on a click. */
module Journeys {
  import opened Errors
  import opened Text
  import opened Claims
  import opened Documents
  import opened AuthRepository
  import opened AuthService
  import opened Jwt
  import opened ShortRepository
  import opened ShortService
  import opened ShortConsumer
  import opened UserService

  /** The header a client sends back: the token type, a space, the token. */
  function AuthorizationHeader(login: LoginResponse): string {
    login.tokenType + " " + login.accessToken
  }

  /** A login that succeeds for the verified user at index `i`, whose token
      decodes (HMAC-signed) to the claims issued at time `issued`, with the
      library's own verdict `v` on signature and standard claims. While the
      library accepts the token and the clock has not passed the expiry the
      claims carry, the middleware accepts it with the user's id, name and
      email as payload. Once the clock is past that expiry the token is
      refused whatever the library says, and when the library refuses it
      (as it does for an expired `exp`) its own error is what the client
      sees, before the middleware's expiry branch is reached. */
  lemma LoginTokenAccepted(s: AuthStores, req: LoginRequest, hours: int, check: HashCheck, io: LoginIo,
                           i: nat, issued: int, v: Option<Error>, parse: TokenParser, now: int)
    requires LoginStep(s, req, hours, check, io).Ok?
    requires FindVerified(s.users, req.email) == Some(i)
    requires ' ' !in io.signed.value
    requires parse(io.signed.value) == Decoded(Hmac, IssuedClaims(s.users[i], issued, hours), v)
    ensures var r := Validate(AuthorizationHeader(LoginStep(s, req, hours, check, io).value), parse, now);
      && (v.None? && now <= issued + hours * SecondsPerHour
          ==> r == Ok(DecodePayloadData(Hex(s.users[i].id), s.users[i].fullName, req.email)))
      && (now > issued + hours * SecondsPerHour ==> r.Fail?)
      && (v.Some? ==> r == Fail(v.value))
      && (v.None? && now > issued + hours * SecondsPerHour ==> r == Fail(NewError(Validation, "Token expired")))
  {
    var login := LoginStep(s, req, hours, check, io).value;
    assert login.tokenType + " " == BearerPrefix;
    assert AuthorizationHeader(login) == BearerPrefix + io.signed.value;
    BearerHeaderToken(io.signed.value);
  }

  /** Whatever the library makes of a token, a header without the word
      Bearer never reaches it. */
  lemma NoBearerNoParse(header: string, parse1: TokenParser, parse2: TokenParser, now: int)
    requires !Contains(header, BearerWord)
    ensures Validate(header, parse1, now) == Validate(header, parse2, now)
    ensures HasKind(Validate(header, parse1, now).err, NotFound)
  {
    NewErrorKind(NotFound, "Token not found", NotFound);
  }

  /** A link generated for a user, delivered on the shortener's create
      queue and stored, redirects to the URL the user asked for, provided
      its code is eight bytes long and not already taken and the URL
      parses. */
  lemma GeneratedLinkResolves(u: UserState, userID: string, req: ShortUserRequest, base: string, code: string,
                              s: Stores, cfg: QueueConfig, parse: UriParser, io: StoreIo, ttl: int)
    requires GenerateStep(u, userID, req, base, code, None).0.Ok?
    requires StoresValid(s) && Coherent(s) && FindByCode(s.links, code).None?
    requires Utf8Len(code) == 8 && parse(req.fullURL).None? && io.write.None?
    ensures var u1 := GenerateStep(u, userID, req, base, code, None).1;
      var t := Handle(s, cfg, cfg.createShortener, parse, Delivery(u1.published[|u.published|].body, io));
      && Coherent(t)
      && ClickStep(t, code, ttl, NoClickFaults).0 == Ok(ClickShortResponse(req.fullURL))
  {
    GenerateOutcome(u, userID, req, base, code, None);
    var u1 := GenerateStep(u, userID, req, base, code, None).1;
    var body := u1.published[|u.published|].body;
    var t := Handle(s, cfg, cfg.createShortener, parse, Delivery(body, io));
    assert t == InsertLink(s, CreateShortRequest(userID, req.fullURL, code), io.now);
    CreateStepCoherent(s, CreateShortRequest(userID, req.fullURL, code), parse, io);
    assert code !in s.cache;
    var n := |s.links|;
    assert t.links[n].shortURL == code;
    assert forall j :: 0 <= j < n ==> t.links[j] == s.links[j];
    assert FindByCode(t.links, code) == Some(n);
  }
}
