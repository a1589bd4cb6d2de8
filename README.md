# singkatin-revamp, modelled in Dafny

singkatin-revamp is a URL shortener split into services that talk over
HTTP, gRPC and RabbitMQ queues:

- the **shortener** service stores links (full URL, eight-letter code, owner,
  visit counter) in MongoDB, caches code → URL in Redis, redirects clicks,
  publishes one visit event per click and consumes those events (and
  link-creation messages) from its queues;
- the **auth** service registers users (unverified, with a mailed
  verification code kept in Redis), verifies codes and logs verified users
  in with a signed JWT;
- the **user** service checks that JWT in a middleware, shows profiles and
  dashboards (the dashboard lists the user's links over gRPC from the
  shortener), queues link generation, profile edits and avatar uploads.

The model keeps each service's repository, service, controller and (for the
shortener) queue consumer. Stores are Dafny classes (`ShortRepo`,
`AuthRepo`, `UserBackend`) whose fields are the collections, the cache and the
published queue messages. Each state-changing method is proved equal to a
pure step function over a snapshot of those fields (`ClickStep`,
`RegisterStep`, `AvatarStep`, ...). The properties are lemmas about the step
functions: cache coherence, visit counting, the register → verify → login
life cycle, and two paths across services. In the first, a token issued at
login is accepted by the user service. In the second, a link generated by the
user service is created by the shortener's consumer and then redirects to the
requested URL. Every database, cache, broker, mail, clock, random-code, JWT and
URL-parsing call is a parameter, so every failure path of the source is a
reachable input.

Go's `error` is `Errors.Error(text)`. An error's kind is found the way the
controllers find it: by substring search for the kind's text
(`strings.Contains(err.Error(), string(model.Validation))`). `len` on a Go
string is its UTF-8 byte length (`Text.Utf8Len`). Visit counters are `int64`
with wrap-around (`ShortRepository.Inc64`).

Where the code and its model types disagree, the code is followed:

- `rabbitmq.go` hands a `model.CreateShortRequest` to a handler that takes the
  generated `CreateShortenerMessage`, and a `model.UpdateVisitorRequest` to a
  handler that takes `UpdateVisitorCountMessage`. Both are modelled as the
  fields passed through.
- The shortener service calls `GetByID`, `DeleteFullURLByKey`,
  `UpdateFullURLByID` and `DeleteByID`, and the user service calls
  `UpdateProfileByID`, `UpdateAvatarUserByID` and three more publish methods.
  None of these is in the repository interfaces. They are modelled as the
  obvious store operations, and their not-found texts are taken from the
  surrounding code. `UpdateProfileByID` sets the name of the first user with
  that id (`UserService.Rename`), so a later profile read sees it.
  `UpdateAvatarUserByID` is only recorded as a write, because the user
  service's `model.User` has no avatar field that a read could return.
- The auth service uses `model.NotFound` and `User.IsVerified`/`CreatedAt`,
  which auth's `model` files do not declare. They are taken from the
  shortener's error kinds ("Not Found") and from the repository's use.
- user/internal/v1/model/error.go is not part of this model. The user service's
  error kinds are taken to be the shortener's.
- The user service's `GenerateShortUserMessage` declaration is not part of this
  model. Its JSON keys are taken to be those of the shortener's
  `CreateShortRequest` (`user_id`, `full_url`, `short_url`).
- The shortener's `UpdateVisitorRequest`, `UpdateShortRequest` and
  `DeleteShortRequest` declarations are not part of this model either. The
  visit event's key is taken to be `short_url`, and the update and delete
  requests carry the link id (and, for an update, the new URL).
- Link codes are random and nothing checks them for duplicates, so two links
  can share a code. A click then resolves to the earlier link
  (`ShortService.UpdateThenClickFirstHolder`), and an update of the later
  link is not what that code redirects to.

## Model

| member | source | states |
|---|---|---|
| Text.Utf8Len | shortener/internal/v1/service/short.go:203 | Go's `len` on a string: between the rune count and four times it, and zero only for the empty string |
| Text.Utf8LenAppend | shortener/internal/v1/service/short.go:203 | byte length is additive over concatenation |
| Text.AsciiUtf8Len | shortener/internal/v1/service/short.go:203 | on ASCII text the byte length is the rune count |
| Text.ContainsIffOccurs | shortener/internal/v1/controller/short.go:106 | `strings.Contains` holds exactly when the pattern occurs at some position |
| Text.RuneAbsent | shortener/internal/v1/controller/short.go:106-110 | a text missing any one rune of the pattern does not contain it |
| Text.RemoveAll | user/internal/v1/middleware/jwt.go:54 | `strings.Replace(s, pat, "", -1)`: the result is never longer than the input |
| Text.RemoveAllAbsent | user/internal/v1/middleware/jwt.go:54 | removing a pattern that does not occur leaves the text unchanged |
| Text.RemoveAllLeading | user/internal/v1/middleware/jwt.go:54 | a leading occurrence is dropped and scanning continues after it |
| Errors.NewError | shortener/internal/v1/model/error.go:20-22 | the text is the kind's text, ": ", then the message |
| Errors.KindTextInjective | shortener/internal/v1/model/error.go:12-16 | the five kind texts are pairwise distinct |
| Errors.KindTextsIndependent | shortener/internal/v1/model/error.go:12-16 | no kind text contains another, so substring classification cannot confuse two kinds |
| Errors.NewErrorKind | shortener/internal/v1/model/error.go:20-22 | an error built with kind k is classified as kind j exactly when j = k, for messages without j's initial capital |
| Envelope.NewResponses | shortener/internal/v1/helper/http.go:23-39 | status, message and data pass through; error only on status ≥ 400, meta only below; the reply is well formed |
| Envelope.NewAbortingResponses | auth/internal/v1/helper/http.go:21-38 | the same envelope, and the handler chain is aborted exactly when status ≥ 400 |
| Envelope.VariantsAgree | user/internal/v1/helper/http.go:23-39 | the echo/fiber and gin helpers write the same body |
| Documents.FirstWhere | shortener/internal/v1/repository/short.go:110-128 | `FindOne`: the least index whose document matches, or none when none does |
| Documents.Hex | shortener/internal/v1/controller/short.go:76 | `ObjectID.Hex()` is exactly 24 characters, one per hexadecimal digit |
| Documents.HexRoundTrip | shortener/internal/v1/controller/short.go:76 | reading the k digits back gives the id modulo 16^k |
| Documents.HexInjective | auth/internal/v1/service/auth.go:191 | two ids have the same hex string exactly when they are equal, so the `user_id` claim identifies its user |
| Email.IsLabel | auth/internal/v1/model/auth.go:21 | one domain label: 1 to 63 letters, digits and hyphens, starting and ending with a letter or digit |
| Email.IsDomain | auth/internal/v1/model/auth.go:21 | the `domain` group: labels separated by single dots |
| Email.IsLocalPart | auth/internal/v1/model/auth.go:21 | the `name` group: one or more letters, digits and the listed punctuation, blank and backquote included |
| Email.IsValidEmail | auth/internal/v1/model/auth.go:21 | the anchored pattern: a name, one '@', a domain, split at the first '@' |
| Email.IndexOf | auth/internal/v1/model/auth.go:21 | the first position of a rune, and none exactly when it is absent |
| Email.DomainHasNoAt | auth/internal/v1/model/auth.go:21 | a domain matched by the pattern holds no '@' |
| Email.DomainEnds | auth/internal/v1/model/auth.go:21 | a matched domain is non-empty and neither starts nor ends with '.' |
| Email.OneAt | auth/internal/v1/model/auth.go:21 | a matching address holds exactly one '@' |
| Email.Compose | auth/internal/v1/model/auth.go:21 | for a valid local part, name@domain matches exactly when the domain does |
| Password.ClassOf | auth/internal/v1/helper/crypt.go:33-44 | the case of the switch that fires for a rune, tried in source order: upper, lower, number, then punctuation or symbol (exact on ASCII) |
| Password.Strong | auth/internal/v1/helper/crypt.go:30-45 | the accepted passwords: at least 7 bytes with a rune in each of the four classes |
| Password.IsValid | auth/internal/v1/helper/crypt.go:22-46 | the flag loop answers true exactly when the password is at least 7 bytes and has an upper, a lower, a digit and a special rune |
| Password.ShortIsWeak | auth/internal/v1/helper/crypt.go:30 | fewer than 7 bytes is never strong |
| Password.StrongAppend | auth/internal/v1/helper/crypt.go:22-46 | appending to a strong password keeps it strong |
| Password.NoClassOnlyLength | auth/internal/v1/helper/crypt.go:33-44 | runes of no class count only toward the length |
| Password.StrongRotation | auth/internal/v1/helper/crypt.go:22-46 | the rule does not depend on rune order: moving a prefix of a password to its end keeps it strong or weak |
| ShortRepository.Inc64 | shortener/internal/v1/repository/short.go:195-210 | `visited + 1` on int64: stays in range, adds one, wraps at the top |
| ShortRepository.DecodeVisit | shortener/internal/v1/infrastructure/rabbitmq.go:51-56 | decoding fails only on a malformed body, which leaves the zero request |
| ShortRepository.EncodeVisit | shortener/internal/v1/repository/short.go:167 | the JSON body of a visit event: the `short_url` field |
| ShortRepository.VisitRoundTrip | shortener/internal/v1/repository/short.go:160-193 | the consumer decodes a published visit event back to the request |
| ShortRepository.DecodeCreate | shortener/internal/v1/infrastructure/rabbitmq.go:35-40 | decoding fails only on a malformed body, which leaves the zero request |
| ShortRepository.InsertLink | shortener/internal/v1/repository/short.go:92-108 | one new document with the request's fields, a fresh id, zero visits; cache and queue untouched |
| ShortRepository.CacheSet | shortener/internal/v1/repository/short.go:145-158 | the code maps to the URL and TTL; no other cache key and no other store changes |
| ShortRepository.CacheDelete | shortener/internal/v1/service/short.go:163 | the code is no longer cached; no other cache key and no other store changes |
| ShortRepository.SetVisited | shortener/internal/v1/repository/short.go:195-210 | the counter write of `UpdateVisitorByShortURL`; its frame is stated by `SetVisitedFrame` |
| ShortRepository.SetFullURL | shortener/internal/v1/service/short.go:168 | only the first link with the id changes, and only its URL; cache and queue untouched |
| ShortRepository.RemoveLink | shortener/internal/v1/service/short.go:187 | with no link of that id nothing changes; otherwise exactly that one link is gone and every other stays; cache and queue untouched |
| ShortRepository.InsertLinkValid | shortener/internal/v1/repository/short.go:92-108 | inserting keeps ids distinct and below the generator |
| ShortRepository.SetVisitedFrame | shortener/internal/v1/repository/short.go:195-210 | only the first link with the code changes: its counter is last + 1 (wrapped) and its update time set |
| ShortRepository.RemoveLinkValid | shortener/internal/v1/service/short.go:187 | deleting keeps the store invariant |
| ShortRepository.OwnedBy | shortener/internal/v1/repository/short.go:60-64 | the filter `user_id = userID`: each link of that user as often as the store holds it, and no other link |
| ShortRepository.InsertSortedPerm | shortener/internal/v1/repository/short.go:65-67 | inserting into the sorted list adds exactly that element |
| ShortRepository.InsertSortedSorted | shortener/internal/v1/repository/short.go:65-67 | insertion keeps newest-first order |
| ShortRepository.SortNewestFirst | shortener/internal/v1/repository/short.go:65-67 | the result is ordered by created_at then _id, descending, and is a permutation of the input |
| ShortRepository.ListByUser | shortener/internal/v1/repository/short.go:58-90 | a permutation of the user's links (each exactly once per stored copy), ordered newest first |
| ShortRepository.DecodeShort | shortener/internal/v1/repository/short.go:74-80 | `cur.Decode` into a fresh `model.Short`: the fields before the first one that fails (in document order `_id`, `full_url`, `user_id`, `short_url`, `visited`) are the document's, the rest are zero; a clean decode keeps all five, and `created_at` is never filled |
| ShortRepository.DecodeCursor | shortener/internal/v1/repository/short.go:73-82 | the cursor loop: one entry per document in order, each the record its decode leaves; a decode error does not stop the loop |
| ShortRepository.ShortRepo.GetListShortenerByUserID | shortener/internal/v1/repository/short.go:58-90 | find and cursor failures are returned; otherwise one entry per listed link in order, each as far as it decoded |
| ShortRepository.ShortRepo.Create | shortener/internal/v1/repository/short.go:92-108 | the state becomes `InsertLink` of the old state unless the insert fails |
| ShortRepository.ShortRepo.GetByShortURL | shortener/internal/v1/repository/short.go:110-128 | the first link with the code, "short_url not found" when there is none, or the store's failure |
| ShortRepository.ShortRepo.GetByID | shortener/internal/v1/service/short.go:157-160 | the first link with the id, "id not found" when there is none, or the store's failure |
| ShortRepository.ShortRepo.GetFullURLByKey | shortener/internal/v1/repository/short.go:130-143 | a hit with the cached URL, a miss when the key is absent, or the cache's failure |
| ShortRepository.ShortRepo.SetFullURLByKey | shortener/internal/v1/repository/short.go:145-158 | the cache maps the code to the URL with the TTL unless the write fails |
| ShortRepository.ShortRepo.DeleteFullURLByKey | shortener/internal/v1/service/short.go:163 | the key is removed from the cache unless the delete fails |
| ShortRepository.ShortRepo.PublishUpdateVisitorCount | shortener/internal/v1/repository/short.go:160-193 | one JSON visit event is appended to the queue unless the publish fails |
| ShortRepository.ShortRepo.UpdateVisitorByShortURL | shortener/internal/v1/repository/short.go:195-210 | the counter of the first link with the code is set to last + 1 unless the update fails |
| ShortRepository.ShortRepo.UpdateFullURLByID | shortener/internal/v1/service/short.go:168 | the first link with the id gets the new URL unless the write fails |
| ShortRepository.ShortRepo.DeleteByID | shortener/internal/v1/service/short.go:187 | the first link with the id is removed unless the delete fails |
| ShortService.ValidateClickShort | shortener/internal/v1/service/short.go:198-208 | a code passes exactly when it is 8 bytes long; the empty code gets "short URL cannot be empty"; failures are Validation errors |
| ShortService.ValidateUrl | shortener/internal/v1/service/short.go:190-196 | a URL passes exactly when the parser accepts it; otherwise a Validation error with the parser's message |
| ShortService.VisitStepValid | shortener/internal/v1/service/short.go:130-146 | counting a visit keeps the store invariant |
| ShortService.CreateStepValid | shortener/internal/v1/service/short.go:61-76 | creating a link keeps the store invariant |
| ShortService.ClickRejectsBadCode | shortener/internal/v1/service/short.go:89-92 | a code that is not 8 bytes fails with Validation and touches nothing |
| ShortService.ClickEffects | shortener/internal/v1/service/short.go:78-128 | a click never changes the links, caches at most its own code (with the URL it returns) and queues one visit exactly when it succeeds |
| ShortService.ClickHit | shortener/internal/v1/service/short.go:120-127 | on a cache hit the cached URL is returned and one visit queued |
| ShortService.ClickMissFound | shortener/internal/v1/service/short.go:96-114 | on a miss the stored URL is returned, cached with the configured TTL, and one visit queued |
| ShortService.ClickMissNotFound | shortener/internal/v1/service/short.go:99-102 | on a miss for an unknown code: Not Found, nothing changed |
| ShortService.ClickFaults | shortener/internal/v1/service/short.go:94-124 | a cache read failure is returned with no effect; a publish failure after a found URL is returned |
| ShortService.ClickResolvesToStore | shortener/internal/v1/service/short.go:78-128 | with a coherent cache, a successful click returns what the store holds and the cache stays coherent |
| ShortService.ClickTwiceSameUrl | shortener/internal/v1/service/short.go:78-128 | a second fault-free click (now warm) returns the same URL as the first |
| ShortService.VisitStepCoherent | shortener/internal/v1/service/short.go:130-146 | counting a visit keeps the cache coherent |
| ShortService.CreateStepCoherent | shortener/internal/v1/service/short.go:61-76 | creating a link keeps the cache coherent |
| ShortService.UpdateStepCoherent | shortener/internal/v1/service/short.go:148-169 | updating a link (cache entry dropped before the write) keeps the cache coherent, whatever fails |
| ShortService.DeleteStepCoherent | shortener/internal/v1/service/short.go:171-188 | deleting a link (cache entry dropped first) keeps the cache coherent, whatever fails |
| ShortService.VisitOutcomes | shortener/internal/v1/service/short.go:130-146 | a read failure, an unknown code ("short_url not found") and a write failure change nothing; a clean visit raises the first holder's counter by one (int64) and stamps it, cache and queue untouched |
| ShortService.CreateOutcomes | shortener/internal/v1/service/short.go:61-76 | a URL the parser rejects is Validation with the parser's text and no store access, whatever the I/O; a write failure changes nothing; otherwise exactly the new link is appended |
| ShortService.UpdateOutcomes | shortener/internal/v1/service/short.go:148-169 | a rejected URL is Validation before any store access; a read failure or unknown id ("id not found") changes nothing; a failed invalidation leaves everything as it was; a failed write leaves only the code uncached; a clean update uncaches the code and changes only that link's URL |
| ShortService.DeleteOutcomes | shortener/internal/v1/service/short.go:171-188 | a read failure or unknown id changes nothing; a failed invalidation leaves everything as it was; a failed delete leaves only the code uncached; a clean delete uncaches the code and removes exactly the first link with the id |
| ShortService.UpdateThenClickFirstHolder | shortener/internal/v1/service/short.go:78-169 | after a successful update the next click on the link's code returns the URL of the first link holding that code: the new URL when no earlier link shares the code, the earlier link's untouched URL otherwise |
| ShortService.UpdateThenClick | shortener/internal/v1/service/short.go:148-169 | when no two links share a code (nothing in the service enforces this), the next click after a successful update returns the new URL, not a stale cached one |
| ShortService.ShortService.GetListShortenerByUserID | shortener/internal/v1/service/short.go:42-59 | the repository's list; every entry's `user_id` is the user's, or empty when the document failed before that field |
| ShortService.ShortService.ClickShort | shortener/internal/v1/service/short.go:78-128 | result and new state are `ClickStep` of the old state |
| ShortService.ShortService.UpdateVisitorShort | shortener/internal/v1/service/short.go:130-146 | result and new state are `VisitStep` of the old state, whose every branch `VisitOutcomes` states |
| ShortService.ShortService.CreateShort | shortener/internal/v1/service/short.go:61-76 | result and new state are `CreateStep` of the old state, whose every branch `CreateOutcomes` states |
| ShortService.ShortService.UpdateShort | shortener/internal/v1/service/short.go:148-169 | result and new state are `UpdateStep` of the old state, whose every branch `UpdateOutcomes` states |
| ShortService.ShortService.DeleteShort | shortener/internal/v1/service/short.go:171-188 | result and new state are `DeleteStep` of the old state, whose every branch `DeleteOutcomes` states |
| ShortController.ToPb | shortener/internal/v1/controller/short.go:75-80 | the gRPC record carries the hex id, URL, code and counter |
| ShortController.ToPbList | shortener/internal/v1/controller/short.go:72-81 | the response list has one converted record per link, in order |
| ShortController.ClickReply | shortener/internal/v1/controller/short.go:104-117 | success is a 307 to the URL; Validation is 400, else Not Found 404, else 500 "failed click shortener", with the code as data |
| ShortController.ClickReplyByKind | shortener/internal/v1/controller/short.go:106-114 | each kind of service error lands on its own status |
| ShortController.ClickShortenerOutcomes | shortener/internal/v1/controller/short.go:99-118 | with a coherent cache and no faults: a bad code is 400, an unknown code 404, a stored one a 307 to its stored URL |
| ShortController.AsInternal | shortener/internal/v1/controller/short.go:132-134 | a handler error is wrapped as Internal, its text following the kind |
| ShortController.ShortController.GetListShortenerByUserID | shortener/internal/v1/controller/short.go:58-86 | a service failure is gRPC Internal with "Failed Get List Shortener By UserID " + text; success lists the user's links, each as far as it decoded, converted |
| ShortController.ShortController.ClickShortener | shortener/internal/v1/controller/short.go:99-118 | the reply is `ClickReply` of the click and the state that of `ClickStep` |
| ShortController.ShortController.ProcessCreateShortUser | shortener/internal/v1/controller/short.go:120-137 | the create step's effect, its error wrapped as Internal |
| ShortController.ShortController.ProcessUpdateVisitorCount | shortener/internal/v1/controller/short.go:139-154 | the visit step's effect, its error wrapped as Internal |
| ShortController.ShortController.ProcessUpdateShortUser | shortener/internal/v1/controller/short.go:156-172 | the update step's effect, its error wrapped as Internal |
| ShortController.ShortController.ProcessDeleteShortUser | shortener/internal/v1/controller/short.go:174-189 | the delete step's effect, its error wrapped as Internal |
| ShortConsumer.Handle | shortener/internal/v1/infrastructure/rabbitmq.go:33-66 | one delivery keeps the store invariant; a queue of neither name changes nothing |
| ShortConsumer.Drain | shortener/internal/v1/infrastructure/rabbitmq.go:31-69 | handling deliveries in order keeps the store invariant |
| ShortConsumer.Deliver | shortener/internal/v1/infrastructure/rabbitmq.go:33-66 | one delivery decoded for its queue's kind and handled: the new state is `Handle` of the old |
| ShortConsumer.ConsumeMessages | shortener/internal/v1/infrastructure/rabbitmq.go:16-69 | a failed subscription processes nothing; otherwise the state is the in-order drain of the deliveries |
| ShortConsumer.DrainOtherQueue | shortener/internal/v1/infrastructure/rabbitmq.go:33-67 | a consumer on an unknown queue leaves the store as it was |
| ShortConsumer.VisitsAccumulate | shortener/internal/v1/infrastructure/rabbitmq.go:50-65 | N clean visit events for a stored code raise its link's counter by exactly N and change nothing else but its update time |
| AuthRepository.InsertUser | auth/internal/v1/repository/auth.go:61-81 | one new unverified user with the request's name, email, password and the clock, under a fresh id |
| AuthRepository.MarkVerified | auth/internal/v1/repository/auth.go:141-156 | only the first user with that email changes, and only its verified flag |
| AuthRepository.InsertUserValid | auth/internal/v1/repository/auth.go:52-89 | inserting an unused email keeps ids distinct and emails unique |
| AuthRepository.MarkVerifiedValid | auth/internal/v1/repository/auth.go:141-156 | verifying keeps the invariant |
| AuthRepository.AuthRepo.CreateUser | auth/internal/v1/repository/auth.go:52-89 | lookup failure, then "email already exists" (Validation), then insert failure leave the store unchanged; otherwise the user is inserted, and an untyped id is a Type error though the user stays |
| AuthRepository.AuthRepo.FindByEmail | auth/internal/v1/repository/auth.go:91-109 | the first verified user with the email, else "users not found", or the store's failure |
| AuthRepository.AuthRepo.SetRegisterVerificationByEmail | auth/internal/v1/repository/auth.go:111-124 | the code maps to the email with the TTL unless the write fails |
| AuthRepository.AuthRepo.GetRegisterVerificationByCode | auth/internal/v1/repository/auth.go:126-139 | the email stored under the code, a miss, or the cache's failure |
| AuthRepository.AuthRepo.UpdateVerifyStatusByEmail | auth/internal/v1/repository/auth.go:141-156 | the new state is `MarkVerified` of the old unless the update fails |
| AuthRepository.SetThenGetCode | auth/internal/v1/repository/auth.go:111-139 | a stored code reads back its email; every other code keeps its entry and the users are untouched |
| AuthService.ValidateRegisterUser | auth/internal/v1/service/auth.go:156-170 | passes exactly when the name is at least 3 bytes and the email matches; a name under 3 bytes is "full name must more than 3", else a bad email is "invalid email", both Validation |
| AuthService.EmptyNameCheckUnreachable | auth/internal/v1/service/auth.go:157-163 | "full name required" is never returned: an empty name gets "full name must more than 3" |
| AuthService.ValidateLoginUser | auth/internal/v1/service/auth.go:172-178 | passes exactly when the email matches, else "invalid email" |
| AuthService.IssuedClaims | auth/internal/v1/service/auth.go:180-203 | the token's claims are exactly user_id (hex id), full_name, email and exp = now + hours |
| AuthService.RegisterValidatesFirst | auth/internal/v1/service/auth.go:56-59 | a request the validator rejects fails with that error and changes nothing |
| AuthService.RegisterSucceeds | auth/internal/v1/service/auth.go:51-97 | a successful registration adds exactly one unverified user and one code for its email, and answers with the new hex id |
| AuthService.RegisterStepValid | auth/internal/v1/service/auth.go:51-97 | registration keeps ids distinct and emails unique |
| AuthService.RegisterDuplicate | auth/internal/v1/service/auth.go:66-74 | a taken email fails with "email already exists" and changes nothing |
| AuthService.MailFailureStrandsUser | auth/internal/v1/service/auth.go:84-90 | when the mail fails the user is still stored, so registering again is refused as a duplicate |
| AuthService.VerifyOutcomes | auth/internal/v1/service/auth.go:132-154 | an unknown code is "code not found / expired" with no change; a known one verifies its email's user |
| AuthService.VerifyIdempotent | auth/internal/v1/service/auth.go:132-154 | verifying the same code twice succeeds and changes nothing the second time |
| AuthService.RegisterVerifyLogin | auth/internal/v1/service/auth.go:51-154 | after registering, login is "users not found" until the mailed code is verified, then it succeeds |
| AuthService.AuthService.RegisterUser | auth/internal/v1/service/auth.go:51-97 | result and new state are `RegisterStep` of the old state |
| AuthService.LoginOutcomes | auth/internal/v1/service/auth.go:99-130 | a malformed email fails with "invalid email" before the lookup; a lookup failure is returned; a missing or unverified user is "users not found"; a wrong password is Validation "invalid password" before signing; a signing failure is returned; otherwise a Bearer token expiring `hours` after now |
| AuthService.AuthService.LoginUser | auth/internal/v1/service/auth.go:99-130 | the result is `LoginStep` of the store, whose every branch `LoginOutcomes` states |
| AuthService.AuthService.VerifyCode | auth/internal/v1/service/auth.go:132-154 | result and new state are `VerifyStep` of the old state |
| AuthController.RegisterReply | auth/internal/v1/controller/auth.go:70-79 | success 201; a Validation error 400 with the request echoed; any other error 500 "Failed register user"; errors abort |
| AuthController.LoginReply | auth/internal/v1/controller/auth.go:107-121 | success 200; Validation 400, else Not Found 404, else 500 "Failed login user"; errors abort |
| AuthController.LoginErrorStatuses | auth/internal/v1/controller/auth.go:107-121 | Validation, Not Found and other errors built by the service land on 400, 404 and 500 |
| AuthController.UnverifiedLoginIs404 | auth/internal/v1/controller/auth.go:107-121 | logging in as a user who is missing or not yet verified is a 404 |
| AuthController.WrongPasswordIs400 | auth/internal/v1/controller/auth.go:107-121 | a verified user who gives the wrong password gets a 400, not a 404 |
| AuthController.AuthController.Register | auth/internal/v1/controller/auth.go:56-80 | a body that does not bind is 400 "Invalid request" with no effect; otherwise `RegisterReply` of the register step, whose state it takes |
| AuthController.AuthController.Login | auth/internal/v1/controller/auth.go:93-122 | a body that does not bind is 400 "Invalid request"; otherwise `LoginReply` of the login step |
| Jwt.PayloadOf | user/internal/v1/middleware/jwt.go:96-118 | succeeds exactly when user_id, email and full_name are strings, copying them; the first non-string in that order names the Type error |
| Jwt.InsertPayload | user/internal/v1/middleware/jwt.go:96-118 | the field-by-field fill with early returns computes `PayloadOf` |
| Jwt.CheckExpiry | user/internal/v1/middleware/jwt.go:68-75 | a numeric exp accepts exactly while now ≤ exp, "Token expired" after; a missing or non-numeric exp is a Type error |
| Jwt.Validate | user/internal/v1/middleware/jwt.go:48-83 | no "Bearer" is Not Found "Token not found"; a non-HMAC token is "Invalid token"; success only for an HMAC token the library accepts, unexpired, with a full payload |
| Jwt.Extract | user/internal/v1/middleware/jwt.go:86-93 | returns the stored payload exactly when the local holds one, else a Type error |
| Jwt.ValidateJWTMiddleware | user/internal/v1/middleware/jwt.go:33-45 | passes on (storing the payload) exactly when validation succeeds; otherwise 401 "Unauthorized access, reason : " + error, with the error as data |
| Jwt.BearerHeaderToken | user/internal/v1/middleware/jwt.go:50-54 | "Bearer " followed by a token without spaces passes the check and yields the token itself |
| Journeys.LoginTokenAccepted | user/internal/v1/middleware/jwt.go:48-83 | a token from a successful login, decoding to the issued claims: accepted with the user's hex id, name and email while the library accepts it and the clock is not past exp; refused once past exp; a library refusal is the error returned as is |
| Journeys.NoBearerNoParse | user/internal/v1/middleware/jwt.go:50-52 | without "Bearer" the token parser is never consulted and the error is Not Found |
| Journeys.GeneratedLinkResolves | user/internal/v1/service/user.go:93-113 | a link the user service generates, consumed by the shortener's create queue, redirects to the requested URL and keeps the cache coherent |
| UserService.EncodeGenerate | user/internal/v1/repository/user.go:62 | the JSON body of a link-generation message: `user_id`, `full_url`, `short_url` |
| UserService.GenerateMessageRoundTrip | user/internal/v1/repository/user.go:59-88 | the shortener's create consumer decodes the published message to the caller's id, URL and code |
| UserService.FindUser | user/internal/v1/repository/user.go:43-57 | a stored user with the email exactly when one exists, else "users not found", or the store's failure |
| UserService.ToUserShorts | user/internal/v1/service/user.go:82-87 | a dashboard row copies id, URLs and visit count |
| UserService.UserShortsOf | user/internal/v1/service/user.go:68-90 | the RPC error unchanged; nil for an empty list; otherwise one row per record in order |
| UserService.ValidateFullName | user/internal/v1/service/user.go:120-126 | passes exactly when the name is at least 3 bytes; empty is "Full Name Required", short is "Full Name must more than 3", both Validation |
| UserService.GenerateOutcome | user/internal/v1/service/user.go:93-113 | fails exactly when the publish does, with nothing queued; otherwise one create message (decoding to user id, URL, code) is queued and the answer is base + "/" + code with GET |
| UserService.Rename | user/internal/v1/service/user.go:128 | `UpdateProfileByID`: same length, ids and emails unchanged, and nothing changes when no user has that id |
| UserService.RenameFirst | user/internal/v1/service/user.go:128 | exactly the first user whose hex id is the caller's gets the new name, every other user is unchanged |
| UserService.ProfileOutcome | user/internal/v1/service/user.go:115-134 | a name under 3 bytes is a Validation error with nothing written; a valid one renames the user and is recorded exactly when the write succeeds |
| UserService.EditThenDetail | user/internal/v1/service/user.go:55-134 | after a successful edit, reading the user's profile by email returns the new name |
| UserService.AvatarTypeChecked | user/internal/v1/service/user.go:155-160 | any type but image/jpeg or image/png is a Validation error with nothing queued or written |
| UserService.AvatarName | user/internal/v1/service/user.go:153 | the stored object's name: the uploaded file name, a dash, the user id |
| UserService.AvatarOutcome | user/internal/v1/service/user.go:152-191 | a successful upload queues the file named name + "-" + user id, and the URL returned is the URL written |
| UserService.AvatarWriteFailureKeepsUpload | user/internal/v1/service/user.go:168-187 | when the URL write fails the file is still queued for upload and no URL is recorded |
| UserService.RelayStep | user/internal/v1/service/user.go:194-218 | one publish of an update or delete message: queued and an empty response, or the publish error and no change |
| UserService.RelayOutcome | user/internal/v1/service/user.go:194-218 | update and delete relays queue their request exactly when the publish succeeds, answering an empty response |
| UserService.UserBackend.FindByEmail | user/internal/v1/repository/user.go:43-57 | the lookup is `FindUser` over the stored users |
| UserService.UserBackend.UpdateProfileByID | user/internal/v1/service/user.go:128-131 | the first user with the id is renamed and the write recorded, unless the database fails, whose error is returned with no change |
| UserService.UserBackend.PublishCreateUserShortener | user/internal/v1/repository/user.go:59-88 | the JSON message is appended to the queue unless the publish fails |
| UserService.UserService.GetUserDetail | user/internal/v1/service/user.go:55-61 | the repository lookup, unchanged |
| UserService.UserService.GetUserShorts | user/internal/v1/service/user.go:63-91 | the RPC error unchanged, nil for an empty list, else the rows filled slot by slot, same length and order |
| UserService.UserService.GenerateUserShorts | user/internal/v1/service/user.go:93-113 | result and new state are `GenerateStep` of the old state |
| UserService.UserService.UpdateUserProfile | user/internal/v1/service/user.go:115-134 | result and new state are `ProfileStep` of the old state |
| UserService.UserService.UploadUserAvatar | user/internal/v1/service/user.go:136-192 | result and new state are `AvatarStep` of the old state |
| UserService.UserService.UpdateUserShorts | user/internal/v1/service/user.go:194-205 | queues the update request unless the publish fails |
| UserService.UserService.DeleteUserShorts | user/internal/v1/service/user.go:207-218 | queues the delete request unless the publish fails |
| UserController.ProfileReply | user/internal/v1/controller/user.go:63-78 | extract failure 500; 200 exactly on success; 404 exactly for a Not Found lookup; else 500 |
| UserController.DashboardReply | user/internal/v1/controller/user.go:95-106 | 200 with the rows exactly on success, every failure 500 |
| UserController.GenerateReply | user/internal/v1/controller/user.go:127-142 | 201 exactly on success; 400 exactly for a body that does not parse; else 500 |
| UserController.EditReply | user/internal/v1/controller/user.go:163-182 | 200 exactly on success; 400 exactly for an unparsable body or a Validation error; else 500 |
| UserController.AvatarReply | user/internal/v1/controller/user.go:201-212 | 200 exactly on success, every failure 500 |
| UserController.ProfileMissingUserIs404 | user/internal/v1/controller/user.go:69-73 | a profile for an email no user has is a 404 |
| UserController.ShortNameIs400 | user/internal/v1/controller/user.go:173-177 | a name the service refuses is a 400 |
| UserController.WrongImageTypeIs500 | user/internal/v1/controller/user.go:207-210 | a wrong image type is a 500 although the service reports Validation |
| UserController.UserController.Profile | user/internal/v1/controller/user.go:58-79 | `ProfileReply` of the extracted payload and the lookup by its email |
| UserController.UserController.Dashboard | user/internal/v1/controller/user.go:90-107 | `DashboardReply` of the extracted payload and the rows of the RPC answer |
| UserController.UserController.GenerateShort | user/internal/v1/controller/user.go:120-143 | extract and parse failures change nothing; otherwise `GenerateReply` of the generate step, whose state it takes |
| UserController.UserController.EditProfile | user/internal/v1/controller/user.go:156-183 | extract and parse failures change nothing; otherwise `EditReply` of the profile step, whose state it takes |
| UserController.UserController.UploadAvatar | user/internal/v1/controller/user.go:196-213 | an extract failure changes nothing; otherwise `AvatarReply` of the avatar step, whose state it takes |

## Left out

- Jwt.Validate: the JWT library's own check of `exp` runs inside `jwt.Parse`,
  before the middleware's check at jwt.go:68-75. So an expired token is
  refused with the library's error, and the middleware's "Token expired"
  branch is reached only for tokens the library lets through (`exp` of 0).
  The library's verdict is a parameter, so the model does not tie it to the
  clock.
- Journeys.LoginTokenAccepted: after expiry it promises only that the token is
  refused, with the library's error when the library refuses it. It does not
  name that error, since the library's verdict is a parameter.
- ShortRepository.DecodeVisit: keys are matched exactly and every value is a
  string. Go's `json.Unmarshal` also accepts a key that differs only in case
  (`SHORT_URL`). On a value of another type it reports an error and keeps the
  fields already filled. A body is modelled as a string map, which has
  neither key order nor other value types.
- ShortRepository.DecodeCreate: the same exact-key, string-only decoding as
  `DecodeVisit`, for `user_id`, `full_url` and `short_url`.
- ShortRepository.DecodeShort: why a stored document fails to decode (a
  value of another BSON type in some field) is outside the model; which
  field fails first is a parameter, and the failing field itself is taken to
  stay zero.
- Tracing, logging, configuration loading, health checks, `main` and the
  application wiring: they do not affect results.
- MongoDB, Redis, RabbitMQ, SMTP and gRPC transport: each call is a parameter
  saying whether it fails. Redis TTL expiry over time is not modelled. A cache
  entry records its TTL but never expires, so "code not found / expired" is
  reached only for codes never set.
- `jwt.Parse` and signing: the parser is a function from token to outcome,
  and the signed token is an opaque string. Signature checking and the
  library's own claim checks are its verdict parameter. `float64` exp values
  are integers here.
- bcrypt hashing and comparison are a parameter. The random code generators
  are parameters, so their lengths (8 and 9 letters) are not modelled.
- Password.IsValid: Unicode categories are exact on ASCII only. Other runes
  fall in no class, where `unicode.IsUpper` etc. would classify some.
- UserService.AvatarUrl: `url.URL.EscapedPath` is a parameter.
- UserService.AvatarStep: `UpdateAvatarUserByID` is a log entry that no read
  of the model sees, since the user service's `model.User` has no avatar field.
- ShortService.UriParser: `url.ParseRequestURI` is a parameter. Neither the
  URLs it accepts nor the text of its error is modelled, so which URLs
  `CreateShort` and `UpdateShort` refuse, and with what message, is an input.
- `file.Header["Content-Type"][0]` panics on a file without a content type.
  The model takes the first value as given.
- The upload service (it only consumes the avatar queue) is not part of this
  model.
- Concurrency: consumers run one goroutine per queue and the handlers run
  concurrently. The model handles one call or delivery at a time, so races
  between reading and writing a counter are not captured.
- `GetUserShorts` keeps the rows in the RPC's order. The dashboard's
  newest-first order comes from `ShortRepository.ListByUser`, and the gRPC
  transport between the two is not modelled.
