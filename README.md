# fakeproviders: sessions, step-up keys and the card table, in Dafny

This project models the core of the fake card provider:

- The stateless JWT session service (`repository/jwt`). It turns a session into signed claims and reads a session back out of an accepted token. It also compares claim sets and classifies the library's validation errors.
- The bearer-and-cookie middleware of `cmd/server` (`auth.go`).
- The in-memory card service of `cmd/server`:
  - card records built by setters;
  - the create, load and patch handlers over a shared list of card references;
  - the step-up key store written by `verify` and read by `getCard`;
  - the `me` and `getCard` lookups.
- The random generators of `pkg/utils` (`cmd/server/main.go` holds verbatim copies: `randomStringNumber`, `pickMonth`, `pickYear` and `randomProcessTime` at `cmd/server/main.go:60-63` and `136-161`. They are modelled once, by the `Utils` members).
- The two `ContextHandler.ServeHTTP` status dispatchers.
- The status-recording response writer of `logger`.

Modules, one concept each:

| module | file | models |
|---|---|---|
| `Wrappers` | wrappers.dfy | Option / Result, standing in for nil and `(value, error)` |
| `GoText` | gotext.dfy | the parts of `strings`, `unicode` and `fmt` the code relies on |
| `Jwt` | jwt.dfy | repository/jwt/jwt.go (pure functions) |
| `Auth` | auth.dfy | cmd/server/auth.go (pure functions) |
| `Utils` | utils.dfy | pkg/utils/utils.go, and its copies in cmd/server/main.go |
| `CardTable` | cardtable.dfy | the card record and value-level specifications of the table handlers |
| `KeyStore` | keystore.dfy | `Context.AuthKeys` as a map, with issue, expiry and check |
| `Http` | http.dfy | handler outcomes: status, data, error or panic |
| `Server` | server.dfy | classes `Card` and `Context`, and the handlers as methods |
| `Dispatch` | dispatch.dfy | both `context.go` files |
| `Logger` | logger.dfy | class `MyResponseWriter` |

Imperative code stays imperative:
- Card setters and handlers update `Card` objects held in `Context.cards: seq<Card>`.
- `verify` reassigns `Context.authKeys`.
- `StringWithCharset` and `RandomStringNumber` fill an array in a loop.
- `callBefore` runs a reverse-index loop.

Each of these methods is proved against a value-level function: `CardTable.LoadTable`, `PatchTable`, `CreateTableAsWritten` (and `CreateTable` for the corrected create), `CardOfUser`, `KeyStore.Issue`/`Expire`/`Check`, and `Logger.LifoRun`. Those functions carry the lemmas.

How the model treats what it cannot see:
- **Library calls and inputs.** The jwt-go signer and parser are function parameters (`Jwt.Signer`, `Jwt.Parser`). Clock readings are `now` parameters. Every `math/rand` draw is an index input, and `randomError` is a boolean.
- **Request bodies.** A JSON request body is given already decoded, as a `Result` whose failure is the decoding error.
- **Times.** Times are integer nanoseconds since the Unix epoch. `Unix()` is floor division by 10^9, as in Go.
- **Integers.** `Balance` is an `Int64`, and `+=` wraps around in two's complement (`CardTable.AddInt64`).
- **Undeclared fields.** `cmd/server` reads and writes fields its types never declare:
  - on `card`: `ID`, `User`, `RealPAN`, `RealExpDate`, `CVV`, `UpdatedAt`;
  - on the request's `user`: `Email`;
  - on `Context`: `AuthKeys`, the session key and the session maximum age.

  The model declares them with the types their uses imply.

### Where the code departs from the documented design

The repository's design documentation, which is not among its source files, promises three things the code does not do. The model follows the code in each case:
- **The 401 text is disclosed.** `me`, `verify` and `getCard` answer a failed session check with 401 and the error text as data. `cmd/server`'s dispatcher writes it unchanged (`Dispatch.ServerShowsUnauthorizedText`). The design promises a 401 without detail, which is what `cmd/cards`' dispatcher does (`Dispatch.CardsUnauthorizedCollapses`).
- **Two 400 messages.** A missing key and a wrong key get different messages: `KeyStore.Check`, `Server.Context.GetCard`. The design promises one message for both.
- **Panics.** Several paths end in a Go panic rather than a response, and the model shows each as `Panicked` / `Aborted`:
  - the expired branch of `RefreshSession`;
  - `getCard` without a card, or with a `RealPAN` shorter than 12;
  - `cmd/cards` on status 500, or on status 400 with non-string data.

## Model

| member | source | states |
|---|---|---|
| Jwt.UnixTruncates | repository/jwt/jwt.go:77-86 | going through Unix seconds rounds an instant down to its whole second and is idempotent |
| Jwt.NewSession | repository/jwt/jwt.go:53-70 | a random-source error is returned; otherwise ID is the random id, UserID/Email/Origin are uuid/username/origin and CreatedAt == UpdatedAt == now |
| Jwt.ClaimsFor | repository/jwt/jwt.go:148-172 | the custom ID equals the fresh jti; UserID, Origin and Email are the session's; issuer is the origin and subject the e-mail; iat is now and exp is now + MaxAge, in Unix seconds, so exp - iat is MaxAge when MaxAge is whole seconds |
| Jwt.ClaimsRoundTrip | repository/jwt/jwt.go:77-86 | claims built from a session give back its UserID, Email and Origin, the fresh jti as ID, and CreatedAt/UpdatedAt truncated to whole seconds |
| Jwt.CreateSession | repository/jwt/jwt.go:139-180 | a random-source or signer error is passed on; otherwise the credentials carry exactly the signed token of ClaimsFor |
| Jwt.TokenClaims | repository/jwt/jwt.go:217-230 | the claims of an accepted (white-space trimmed) token, and on every error the error with no claims |
| Jwt.SessionFor | repository/jwt/jwt.go:96-105 | succeeds exactly when the token is accepted, with the session of its claims; otherwise the parser's error |
| Jwt.CreateThenSession | repository/jwt/jwt.go:96-180 | a token issued by CreateSession and accepted yields the original UserID/Email/Origin, the jti as ID, CreatedAt within one second below |
| Jwt.ValidateClaims | repository/jwt/jwt.go:182-204 | no error iff jti, iat, exp, sub and iss all agree; otherwise the message names the first differing field in that order |
| Jwt.IsTokenExpired | repository/jwt/jwt.go:232-238 | true iff the error is a ValidationError whose mask has no bit but Expired (a zero mask included) |
| Jwt.RefreshSession | repository/jwt/jwt.go:111-122 | refreshed (UpdatedAt = now) iff the token is accepted; non-expiry errors are returned; the expired branch dereferences nil |
| Jwt.RefreshSessionPanicsWhenExpired | repository/jwt/jwt.go:111-122 | at every instant, an expired, correctly signed token makes RefreshSession panic instead of refreshing |
| Jwt.RefreshSessionFixed | repository/jwt/jwt.go:107-122 | never panics; an expired token with decoded claims is refreshed with UpdatedAt = now; other errors are returned |
| Jwt.RefreshFixedAgrees | repository/jwt/jwt.go:111-122 | wherever the written RefreshSession completes, the fixed one gives the same outcome |
| Jwt.HasExpired | repository/jwt/jwt.go:125-136 | (false, nil) on acceptance, (true, err) on an expiry-only error, (false, err) on any other |
| Jwt.VerifySigningMethod | repository/jwt/jwt.go:246-253 | the secret key iff the method is HMAC, otherwise "unexpected signing method: <alg>" |
| Auth.ErrorText | cmd/server/auth.go:20-22 | the text is the decimal status, then " -> ", then exactly the message |
| Auth.ErrorTextInjective | cmd/server/auth.go:20-22 | the text of an apiError determines its status and message |
| Auth.SessionToContext | cmd/server/auth.go:70-73 | SessionFromContext reads the stored session back; every other key reads as before |
| Auth.SessionFromContextAbsent | cmd/server/auth.go:62-68 | a context in which no session was stored yields nil |
| Auth.CookieValue | cmd/server/auth.go:119-125 | absent iff no cookie has the name; otherwise the value of the first cookie with that name |
| Auth.ParseAuthToken | cmd/server/auth.go:111-117 | succeeds iff the header starts with "Bearer ", and then "Bearer " + token is the header; fails with the fixed message otherwise (empty header included) |
| Auth.ParseValidationToken | cmd/server/auth.go:119-125 | succeeds iff an access_token cookie is present, with the first such cookie's value; otherwise "http: named cookie not present" |
| Auth.ParseAuthCredentials | cmd/server/auth.go:127-140 | succeeds iff both the bearer header and the cookie are present, carrying exactly their values; a missing header gives its message first, then a missing cookie gives "http: named cookie not present" |
| Auth.Handle | cmd/server/auth.go:87-104 | OPTIONS passes unchecked; otherwise the request passes with its context unchanged iff both credentials are present, else 401 "unauthorized access" |
| Auth.HandleNeverValidates | cmd/server/auth.go:95-102 | any token text and any cookie value get through the gate |
| Utils.RandomStringNumber | pkg/utils/utils.go:26-35 | exactly n characters, each the drawn decimal digit |
| Utils.PickMonth | pkg/utils/utils.go:37-43 | a two-digit month whose value is draw + 1, within 01..12 |
| Utils.PickYear | pkg/utils/utils.go:45-51 | a two-digit year whose value is 19 + draw, within 19..23 |
| Utils.RandomProcessTime | pkg/utils/utils.go:21-24 | lies in [min, max); rand.Intn demands max > min |
| GoText.RemoveAllAfterClean | cmd/server/me.go:33 | strings.Replace(s, "Bearer ", "", -1) removes an occurrence that is not at the front too |
| CardTable.AddInt64 | cmd/server/load.go:28 | the exact sum when it fits in int64, and in every case the value congruent to it modulo 2^64 |
| CardTable.NameOnCard | cmd/server/main.go:98-100 | first name, one space, last name |
| CardTable.ExpDate | cmd/server/main.go:110-114 | "MM/YY" with MM = month draw + 1 in 01..12 and YY = 19 + year draw in 19..23 |
| CardTable.NewCardValue | cmd/server/main.go:119-134 | name, 16-digit PAN, well-formed expiry, 8-digit reference, balance 0, CreatedAt now; User, ID, RealPAN, CVV stay zero |
| CardTable.NewCardValueForUser | cmd/server/main.go:119-134 | the same card with the request's user recorded |
| CardTable.FirstMatch | cmd/server/load.go:26-32 | the index a `break` loop stops at: matching, with no match before it; none iff no card matches |
| CardTable.LastMatch | cmd/server/me.go:52-56 | the index a loop without `break` keeps: matching, with no match after it; none iff no card matches |
| CardTable.CardOfUser | cmd/server/me.go:127-133 | nil iff no card has the user's ID; otherwise the last card of the table with that ID |
| CardTable.LoadTable | cmd/server/load.go:26-43 | same length; nothing found iff no reference matches (table unchanged); otherwise only the first match gains the amount and is returned |
| CardTable.LoadTotal | cmd/server/load.go:26-31 | without overflow a successful load raises the sum of balances by exactly the amount; a miss leaves it |
| CardTable.PatchTable | cmd/server/patch.go:31-56 | same length; none iff no ID matches (unchanged); otherwise the first match has PAN, ExpDate, CVV, ReferenceID from the patch, UpdatedAt now, all else kept |
| CardTable.PatchIdempotent | cmd/server/patch.go:32-43 | applying the same patch again at the same instant changes nothing |
| CardTable.CreateWith | cmd/server/create.go:25-40 | succeeds iff the e-mail is not taken and randomError does not fire; failures give their messages; success appends the card last and keeps the rest |
| CardTable.CreateTableAsWritten | cmd/server/create.go:16-42 | as written, the appended card has no user recorded |
| CardTable.CreateTable | cmd/server/create.go:16-42 | corrected create: with the user recorded, the appended card belongs to the request's user |
| CardTable.CreateKeepsEmailsUnique | cmd/server/create.go:25-35 | with the user recorded, create preserves distinct e-mails across cards |
| CardTable.CreateAsWrittenRecordsNoUser | cmd/server/main.go:119-134 | as written, every card a create appends has an empty user |
| CardTable.CreateAsWrittenNeverRefusesEmail | cmd/server/create.go:25-29 | as written, a non-empty e-mail is never refused; only randomError can stop the create |
| CardTable.CreateAsWrittenTwiceForOneEmail | cmd/server/create.go:25-35 | as written, two creates with the same e-mail both succeed |
| CardTable.CreateTwiceForOneEmailRefused | cmd/server/create.go:25-29 | with the user recorded, the second create for an e-mail is refused with "user already have a card" |
| CardTable.DerivedCvv | cmd/server/me.go:134 | three characters: RealPAN at offsets 3, 7 and 11 (needs 12 characters) |
| CardTable.DetailsOf | cmd/server/me.go:136-148 | the name, the real PAN and expiry, and the derived CVV |
| KeyStore.Lookup | cmd/server/me.go:112 | the stored key, or "" for an owner without one |
| KeyStore.Issue | cmd/server/me.go:73-74 | the owner's key becomes the new one, replacing any previous; other owners keep theirs |
| KeyStore.Expire | cmd/server/me.go:76-80 | the owner's entry is removed whatever it holds; other owners keep theirs |
| KeyStore.ExpireIfCurrent | cmd/server/me.go:76-80 | the entry is removed only if it still holds the timer's key; other owners keep theirs |
| KeyStore.Check | cmd/server/me.go:111-125 | missing iff the stored key is empty or absent; wrong iff stored and different; granted iff stored and equal |
| KeyStore.IssueThenCheck | cmd/server/me.go:73-125 | a non-empty key just issued is granted to its owner |
| KeyStore.ReissueInvalidates | cmd/server/me.go:74 | a second verify makes the first key wrong |
| KeyStore.IssueIsolatesOwners | cmd/server/me.go:74 | issuing for one owner leaves every other owner's check as it was |
| KeyStore.StaleTimerRevokesNewerKey | cmd/server/me.go:76-80 | the first verify's timer removes the key of a second verify for the same owner |
| KeyStore.StaleTimerSparesNewerKey | cmd/server/me.go:76-80 | with the intended expiry the first timer spares a newer, different key |
| KeyStore.TimelyExpiryRevokes | cmd/server/me.go:76-80 | the intended expiry still revokes the key its own timer was set for |
| KeyStore.ExpiriesAgreeWithoutReissue | cmd/server/me.go:76-80 | without a newer key, both expiries leave the same store |
| Http.StatusText | cmd/server/context.go:22 | "Internal Server Error" for 500 and "Not Found" for 404 |
| Server.Card.constructor | cmd/server/main.go:120 | a card with every field at its zero value |
| Server.Card.SetNameOnCard | cmd/server/main.go:98-100 | the name becomes NameOnCard(u); no other field changes |
| Server.Card.SetPAN | cmd/server/main.go:102-104 | the PAN becomes the 16 drawn digits; no other field changes |
| Server.Card.SetReferenceID | cmd/server/main.go:106-108 | the reference becomes the 8 drawn digits; no other field changes |
| Server.Card.SetExpDate | cmd/server/main.go:110-114 | the expiry becomes the well-formed "MM/YY" of the draws; no other field changes |
| Server.Card.SetBalance | cmd/server/main.go:116-118 | the balance becomes the argument; no other field changes |
| Server.Card.ApplyPatch | cmd/server/patch.go:33-37 | PAN, ExpDate, CVV, ReferenceID take the patch and UpdatedAt becomes now; no other field changes |
| Server.NewCard | cmd/server/main.go:119-134 | a fresh card whose fields are NewCardValue of the user, draws and clock |
| Server.NewCardForUser | cmd/server/main.go:119-134 | a fresh card whose fields are NewCardValueForUser |
| Server.StringWithCharset | cmd/server/me.go:152-158 | exactly length characters, each the drawn member of the charset |
| Server.VerificationKeyShape | cmd/server/me.go:16-17 | the charset has 62 characters and a key is 12 ASCII letters or digits |
| Server.CheckSession | cmd/server/me.go:21-40 | an empty Authorization header is refused with "invalid token" |
| Server.CheckSessionAgreesWithParseAuthToken | cmd/server/me.go:33 | for a single leading "Bearer ", the validated token is exactly parseAuthToken's |
| Server.CheckSessionStripsInnerPrefix | cmd/server/me.go:33 | a "Bearer " that is not at the front is removed as well |
| Server.CheckSessionIgnoresScheme | cmd/server/me.go:27-34 | every non-empty header with no "Bearer " in it is refused by parseAuthToken, yet checkSession validates it unchanged as the token |
| Server.CardDetailsOutcome | cmd/server/me.go:127-149 | no card or a RealPAN under 12 characters panics; otherwise 200 with the card's details |
| Server.DetailsOfNewCardPanic | cmd/server/me.go:134 | a card built by newCard has no RealPAN, so a granted getCard for it panics |
| Server.Context.constructor | cmd/server/main.go:35-37 | an empty card list, an empty (non-nil) key store, and the given session secret and maximum age |
| Server.Context.HasCardForEmail | cmd/server/create.go:25-29 | true iff some card in the list has a user with this e-mail |
| Server.Context.Create | cmd/server/create.go:16-42 | as written: a body error is returned; otherwise the table becomes CreateTableAsWritten's (a newCard without user) and 201 carries the new card, or the table is unchanged and the error returned |
| Server.Context.CreateRecordingUser | cmd/server/create.go:16-42 | corrected create: the same outcomes with the table as CreateTable gives it, the new card recording the request's user |
| Server.Context.Load | cmd/server/load.go:14-44 | a body error is returned; otherwise the table becomes LoadTable's, with 200 and the card or 404 |
| Server.Context.Patch | cmd/server/patch.go:18-56 | no id gives "missing id"; a body error is returned; otherwise the table becomes PatchTable's, with 200 and the card or 404 |
| Server.Context.FindUserCard | cmd/server/me.go:127-133 | the last card in the list whose ID is the user's, or nil |
| Server.Context.Me | cmd/server/me.go:42-62 | 401 with the session error's text, or 200 with CardOfUser (possibly nil) |
| Server.Context.Verify | cmd/server/me.go:64-86 | 401 and nothing changes, or a 12-character key issued to the user (KeyStore.Issue), 201 with it and a timer for that user |
| Server.Context.Expire | cmd/server/me.go:76-80 | the key store becomes KeyStore.Expire for the timer's owner |
| Server.Context.ExpireIfCurrent | cmd/server/me.go:76-80 | the key store becomes KeyStore.ExpireIfCurrent for the timer's owner and key |
| Server.Context.GetCard | cmd/server/me.go:88-150 | 401 with the session error's text; the body error; 400 per KeyStore.Check; else CardDetailsOutcome of the user's card; the key store is only read |
| Dispatch.ServeServer | cmd/server/context.go:18-36 | handler errors and status 500 give a plain 500, 404 the not-found page |
| Dispatch.ServerPassesThrough | cmd/server/context.go:27-35 | data is written unchanged iff the status is neither 404 nor 500 |
| Dispatch.ServerShowsUnauthorizedText | cmd/server/context.go:35 | a 401 is written with its text data as it is |
| Dispatch.ServerHidesErrors | cmd/server/context.go:20-24 | every handler error produces the same response |
| Dispatch.ServeCards | cmd/cards/server/context.go:27-52 | error gives 500 with its message; 400 needs string data; 401 an empty message; 404 not found; 500 panics; others unchanged |
| Dispatch.CardsUnauthorizedCollapses | cmd/cards/server/context.go:40-42 | every 401 gets the same error with an empty message, whatever the data |
| Dispatch.CardsInternalStatusPanics | cmd/cards/server/context.go:46-48 | status 500 without an error never gets a response written |
| Dispatch.CardsBadRequestNeedsString | cmd/cards/server/context.go:35-39 | a 400 becomes an error response iff its data is a string |
| Dispatch.DispatchersAgreeOnOrdinaryStatuses | cmd/cards/server/context.go:51 | the two dispatchers agree on every ordinary status and on 404, and differ on 401 |
| Logger.LastStatus | logger/response_writer.go:17-18 | 0 while no header has been forwarded |
| Logger.LifoRun | logger/response_writer.go:66-70 | one run per hook, the k-th run being hook number len-1-k, all seeing the same status |
| Logger.LifoRunNewestFirst | logger/response_writer.go:66-70 | a hook registered last runs first |
| Logger.LifoRunOldestLast | logger/response_writer.go:66-70 | the hook registered first runs last |
| Logger.LastStatusSkipsHooks | logger/response_writer.go:58-64 | hooks running does not change the recorded status |
| Logger.LastStatusAfterWriteHeader | logger/response_writer.go:58-64 | after WriteHeader(code) the recorded status is code |
| Logger.LastStatusAfterWrite | logger/response_writer.go:53-55 | writing a body leaves the recorded status |
| Logger.MyResponseWriter.constructor | logger/response_writer.go:26-36 | status 0, no hooks, nothing written |
| Logger.MyResponseWriter.Status | logger/response_writer.go:39-41 | the code of the last header written, 0 before the first |
| Logger.MyResponseWriter.Before | logger/response_writer.go:49-51 | the hook is appended; earlier registrations keep their order; status and trace unchanged |
| Logger.MyResponseWriter.Write | logger/response_writer.go:53-55 | the bytes are forwarded unchanged; status and hooks untouched |
| Logger.MyResponseWriter.WriteHeader | logger/response_writer.go:58-64 | the status is stored, then all hooks run newest first seeing it, then the code is forwarded; hooks are kept for the next call |
| Logger.MyResponseWriter.CallBefore | logger/response_writer.go:66-70 | the trace gains exactly LifoRun of the hooks with the current status |

## Left out

- **HS256 and compact serialisation.** HS256 signing and verification (section 3.2 of RFC 7518) and the JWS compact serialisation with base64url (section 3.1 of RFC 7515) are not modelled. They live in jwt-go, and appear here only as the `sign` and `parse` parameters.
- **Random bytes and base64.** `crypto/rand` and `base64.StdEncoding` in `NewSession` and `generateRandomToken` are not modelled. Their outcome, a random id or an error, is the `randomID` input.
- **UpdateSession.** `Jwt.UpdateSession` is modelled as a bare delegation to `Jwt.CreateSession`, which is what `jwt.go:144-146` does. It has no contract of its own, so it has no row.
- **SessionOfClaims.** `Jwt.SessionOfClaims` models `(*sessionClaims).Session` (`jwt.go:77-86`). It has no contract of its own; what it gives back is stated by `Jwt.ClaimsRoundTrip`, `Jwt.SessionFor` and `Jwt.CreateThenSession`.
- **SessionFromContext.** `Auth.SessionFromContext` models `SessionFromContext` (`auth.go:62-68`). It has no contract of its own; what it reads is stated by `Auth.SessionToContext` and `Auth.SessionFromContextAbsent`.
- **sigiriya types.** `*sigiriya.Session` comes from an external package. It is the session type `auth.go:63-73` stores in and reads from the request context, and the model uses `Jwt.Session` for it. `sigiriya.SessionCredentials` (`auth.go:127-140`) is `Auth.Credentials`.
- **parseTokens.** This pass-through is folded into `Jwt.SessionFor` and `Jwt.RefreshSession`.
- **math/rand.** Seeding and draws are replaced by index inputs. The probability in `randomError` becomes the boolean `randomFails`.
- **Sleeps.** The delays in `newCard` and `loadHandler` are left out (`time.Sleep` after `randomProcessTime`). They do not affect any result.
- **Deferred deletion.** The goroutine and the 30-second sleep of `verify` are left out. The deletion is an explicit step: `Server.Context.Expire` with the `Timer` that `Verify` returns.
- **Concurrency.** The unsynchronised access to `AuthKeys` and to the card list from concurrent handlers is not modelled.
- **JSON and request bodies.** JSON decoding and reading the request body are not modelled. Handlers receive the decoded body, or its error, as a `Result`.
- **Logging.** The `log.Println`, `log.Printf` and `fmt.Println` calls are left out, because they only write to the process log: `create.go:21` and `49`, `patch.go:27`, `load.go:22`, `main.go:47`, `56` and `130`, and `me.go:78`.
- Server.Context.constructor: `main.go:35-37` builds the context as `&Context{cards: cards}`. An `AuthKeys` map declared there would be nil, so the first `verify` would panic on the write at `me.go:74`, and the session secret and maximum age would be zero. The model assumes the key store is initialised empty and that the secret and maximum age are configured: they are constructor parameters. The nil-map panic is not modelled.
- **Response writing.** JSON encoding and the writes to the client are not modelled. `Dispatch.Written` says which write happens.
- **http.Error newline.** The newline that `http.Error` appends to its text is not modelled.
- **Before-hooks.** What a before-hook does is not modelled; a hook is an identity. A hook that itself calls `WriteHeader` is therefore not covered.
- **The wrapped writer.** Its `Header` and its `Write` return values are not modelled. The `CloseNotify` wrapper in `logger/response_writer.go` is left out.
- **Byte indexing.** Go strings are byte sequences; the model uses sequences of code points. `StringWithCharset` indexes bytes and `RealPAN[3]` takes a byte. Both agree with the model for the ASCII charset and digit strings involved, and not for other text.
- **Other files.**
  - Left out as HTTP wiring or files without logic: `cmd/server/get.go`, `cmd/server/login.go`, the `main` functions of `cmd/server`, `cmd/cards` and `cmd/users`, the two router set-ups in `server.go`, `api-error/api-error.go` and `String` in `cmd/server/me.go`.
  - Left out for other reasons: `NewID` (a wrapper over `google/uuid`), `rate-limit/rate-limit.go` (the limiter is an external library), `logger/logger.go` (formatting and timing only) and the stub services under `services/`.
- **Finite widths.** Integers are unbounded except `Balance`. Balance's `+=` is modelled with int64 wrap-around rather than excluded by a precondition.
- CardTable.LoadTotal: states the total only for loads that do not overflow. A wrapped balance changes the total by the amount minus 2^64.
- **Nil sessions.** `me` and `getCard` dereference `sess.UserID` only after a successful check, which never returns a nil session. The model therefore has no nil-session path.

## Findings

| source | as written | input that shows it | evidently intended | confidence | as-written member | corrected member |
|---|---|---|---|---|---|---|
| repository/jwt/jwt.go:111-122 | on an expiry-only error the nil claims from tokenClaims are dereferenced | an expired token with a valid signature (ValidationError mask 16) | refresh the session from the decoded claims, as the doc comment says the expiry check is skipped | high, not executed | Jwt.RefreshSessionPanicsWhenExpired | Jwt.RefreshSessionFixed |
| cmd/server/me.go:76-80 | the deferred delete removes the owner's entry whatever key it holds | verify twice for one user within 30 s; the first timer fires and removes the second key | remove the entry only while it still holds the key the timer was set for | medium, not executed | KeyStore.StaleTimerRevokesNewerKey | KeyStore.ExpireIfCurrent |
| cmd/server/create.go:25-29 | the guard compares c.User.Email, which newCard never sets | two creates with the same non-empty e-mail both succeed | record the request's user on the new card so the guard can refuse the second (the handler `Server.Context.CreateRecordingUser`) | medium (the fields are undeclared in the source), not executed | CardTable.CreateAsWrittenTwiceForOneEmail | CardTable.CreateTable |
