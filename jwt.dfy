/** The user service's JWT middleware (user/internal/v1/middleware/jwt.go):
    the Authorization header is checked, the token parsed and checked, and
    its payload handed to the handlers through the request locals.

    The JWT library is outside the model: what `jwt.Parse` makes of a token
    string (its signing method, its claims, and the library's own verdict)
    is a function the middleware is given. */
module Jwt {
  import opened Errors
  import opened Text
  import opened Envelope
  import opened Claims

  datatype DecodePayloadData = DecodePayloadData(userID: string, fullName: string, email: string)

  /** What `ctx.Locals(KeyJWTValidAccess)` holds: the payload the middleware
      stored, or anything else (nil included). */
  datatype Local = PayloadLocal(payload: DecodePayloadData) | OtherLocal

  datatype SigningFamily = Hmac | OtherMethod

  /** `jwt.Parse`: a token that does not even decode, or the decoded method
      and claims together with the library's verdict on signature and
      standard claims (`None` when it accepts them). */
  datatype ParseOutcome = Undecodable(err: Error) | Decoded(family: SigningFamily, claims: ClaimMap, verdict: Option<Error>)

  type TokenParser = string -> ParseOutcome

  const BearerWord: string := "Bearer"
  const BearerPrefix: string := "Bearer "

  /** `insertPayload`, as a specification: the three claims must be strings,
      and they are examined user_id, email, full_name in that order. */
  function PayloadOf(claims: ClaimMap): (r: Result<DecodePayloadData>)
    ensures r.Ok? <==> (forall k :: k in {UserIdKey, EmailKey, FullNameKey} ==> k in claims && claims[k].Str?)
    ensures r.Ok? ==> r.value == DecodePayloadData(claims[UserIdKey].s, claims[FullNameKey].s, claims[EmailKey].s)
    ensures !(UserIdKey in claims && claims[UserIdKey].Str?)
            ==> r == Fail(NewError(Type, "type assertion user_id error"))
    ensures UserIdKey in claims && claims[UserIdKey].Str? && !(EmailKey in claims && claims[EmailKey].Str?)
            ==> r == Fail(NewError(Type, "type assertion email error"))
    ensures r.Fail? ==> HasKind(r.err, Type)
  {
    if !(UserIdKey in claims && claims[UserIdKey].Str?) then Fail(NewError(Type, "type assertion user_id error"))
    else if !(EmailKey in claims && claims[EmailKey].Str?) then Fail(NewError(Type, "type assertion email error"))
    else if !(FullNameKey in claims && claims[FullNameKey].Str?) then Fail(NewError(Type, "type assertion full_name error"))
    else Ok(DecodePayloadData(claims[UserIdKey].s, claims[FullNameKey].s, claims[EmailKey].s))
  }

  /** `insertPayload`: fills the struct field by field, returning at the
      first claim that is not a string. */
  method InsertPayload(claims: ClaimMap) returns (r: Result<DecodePayloadData>)
    ensures r == PayloadOf(claims)
  {
    var data := DecodePayloadData("", "", "");
    if UserIdKey in claims && claims[UserIdKey].Str? {
      data := data.(userID := claims[UserIdKey].s);
    } else {
      return Fail(NewError(Type, "type assertion user_id error"));
    }
    if EmailKey in claims && claims[EmailKey].Str? {
      data := data.(email := claims[EmailKey].s);
    } else {
      return Fail(NewError(Type, "type assertion email error"));
    }
    if FullNameKey in claims && claims[FullNameKey].Str? {
      data := data.(fullName := claims[FullNameKey].s);
    } else {
      return Fail(NewError(Type, "type assertion full_name error"));
    }
    return Ok(data);
  }

  /** The expiry test: exp must be a number, and a token is expired only
      once the clock is past it. */
  function CheckExpiry(claims: ClaimMap, now: int): (r: Option<Error>)
    ensures r.None? <==> ExpiresKey in claims && claims[ExpiresKey].Num? && now <= claims[ExpiresKey].x
    ensures ExpiresKey in claims && claims[ExpiresKey].Num? && now > claims[ExpiresKey].x
            ==> r == Some(NewError(Validation, "Token expired"))
    ensures !(ExpiresKey in claims && claims[ExpiresKey].Num?)
            ==> r == Some(NewError(Type, "type assertion payload exp error"))
  {
    if ExpiresKey in claims && claims[ExpiresKey].Num? then
      if now > claims[ExpiresKey].x then Some(NewError(Validation, "Token expired")) else None
    else Some(NewError(Type, "type assertion payload exp error"))
  }

  /** `validate`. */
  function Validate(header: string, parse: TokenParser, now: int): (r: Result<DecodePayloadData>)
    ensures !Contains(header, BearerWord) ==> r == Fail(NewError(NotFound, "Token not found"))
    ensures Contains(header, BearerWord) && parse(RemoveAll(header, BearerPrefix)).Decoded?
            && parse(RemoveAll(header, BearerPrefix)).family == OtherMethod
            ==> r == Fail(NewError(Validation, "Invalid token"))
    ensures r.Ok? ==> var p := parse(RemoveAll(header, BearerPrefix));
      && p.Decoded? && p.family == Hmac && p.verdict.None?
      && CheckExpiry(p.claims, now).None? && r == PayloadOf(p.claims)
  {
    if !Contains(header, BearerWord) then Fail(NewError(NotFound, "Token not found"))
    else
      var token := RemoveAll(header, BearerPrefix);
      match parse(token)
      case Undecodable(e) => Fail(e)
      case Decoded(family, claims, verdict) =>
        if family != Hmac then Fail(NewError(Validation, "Invalid token"))
        else if verdict.Some? then Fail(verdict.value)
        else match CheckExpiry(claims, now)
          case Some(e) => Fail(e)
          case None => PayloadOf(claims)
  }

  /** `Extract`: the stored payload, or a Type error for anything else. */
  function Extract(data: Local): (r: Result<DecodePayloadData>)
    ensures r.Ok? <==> data.PayloadLocal?
    ensures data.PayloadLocal? ==> r.value == data.payload
    ensures data.OtherLocal? ==> r == Fail(NewError(Type, "type assertion extract data error"))
  {
    match data
    case PayloadLocal(p) => Ok(p)
    case OtherLocal => Fail(NewError(Type, "type assertion extract data error"))
  }

  const StatusUnauthorized: int := 401
  const UnauthorizedPrefix: string := "Unauthorized access, reason : "

  /** The middleware either answers 401 itself, or stores the payload and
      passes the request on. The 401 envelope carries the error as its data
      and no error field. */
  datatype MiddlewareOutcome = Unauthorized(reply: Reply<Error>) | Next(local: Local)

  /** `ValidateJWTMiddleware`. */
  method ValidateJWTMiddleware(header: string, parse: TokenParser, now: int) returns (o: MiddlewareOutcome)
    ensures o.Next? <==> Validate(header, parse, now).Ok?
    ensures o.Next? ==> o.local == PayloadLocal(Validate(header, parse, now).value)
    ensures o.Unauthorized? ==> var err := Validate(header, parse, now).err;
      && o.reply.status == StatusUnauthorized && o.reply.body.messages == UnauthorizedPrefix + err.text
      && o.reply.body.data == err && o.reply.body.error.None?
  {
    var decoded := Validate(header, parse, now);
    if decoded.Fail? {
      return Unauthorized(NewResponses(StatusUnauthorized, UnauthorizedPrefix + decoded.err.text, decoded.err, None, None));
    }
    return Next(PayloadLocal(decoded.value));
  }

  /** A header that is the Bearer prefix followed by a token with no space
      hands the token itself to the parser. */
  lemma BearerHeaderToken(token: string)
    requires ' ' !in token
    ensures Contains(BearerPrefix + token, BearerWord)
    ensures RemoveAll(BearerPrefix + token, BearerPrefix) == token
  {
    assert (BearerPrefix + token)[..|BearerWord|] == BearerWord;
    PrefixContained(BearerPrefix + token, BearerWord);
    RemoveAllLeading(BearerPrefix, token);
    RuneAbsent(token, BearerPrefix, 6);
    RemoveAllAbsent(token, BearerPrefix);
  }
}
